/** When the final content of the store depends only on which events were
    submitted, and not on their order or on how they were batched. */
module StoreOrder {
  import opened ByteStrings
  import opened Events
  import opened Sequences
  import opened Store

  /** Ids are hashes: an id determines its event. */
  ghost predicate Coherent(S: set<Event>) {
    && (forall a, b :: a in S && b in S && a.id == b.id ==> a == b)
    && (forall e :: e in S ==> EventOk(e))
  }

  ghost predicate Targeted(S: set<Event>, e: Event) {
    exists d :: d in S && Targets(d, e)
  }

  /** Ids are hashes, so targets do not go round in circles: among any events there is
      one that none of them targets. */
  ghost predicate Acyclic(S: set<Event>) {
    forall T :: T <= S && T != {} ==> exists e :: e in T && !Targeted(T, e)
  }

  /** Some deletion that cannot be deleted itself targets the event. */
  ghost predicate Firm(S: set<Event>, e: Event) {
    exists d :: d in S && Targets(d, e) && !Targeted(S, d)
  }

  /** The greatest event of its slot. */
  ghost predicate Best(S: set<Event>, e: Event) {
    && SlotOf(e).Some?
    && forall x :: x in S && SameSlot(e, x) && x != e ==> Beats(e, x)
  }

  /** Where a deletion matters, it cannot be undone: it hits an event without a slot for
      good, or the best event of a slot and then the whole slot. */
  ghost predicate Settled(S: set<Event>) {
    forall e :: e in S && Targeted(S, e) && (SlotOf(e).None? || Best(S, e)) ==>
      Firm(S, e) && forall x :: x in S && SameSlot(e, x) ==> Firm(S, x)
  }

  /** What is left in the end: what nothing targets, one event per slot. */
  ghost predicate Survives(S: set<Event>, e: Event) {
    e in S && !Targeted(S, e) && (SlotOf(e).Some? ==> Best(S, e))
  }

  ghost predicate Stored(db: Table, e: Event) {
    exists l :: l in db && db[l] == e
  }

  /** The same events are stored, whatever their levIds. */
  ghost predicate SameContent(db: Table, db': Table) {
    forall e :: Stored(db, e) <==> Stored(db', e)
  }

  ghost predicate Lists(es: seq<Event>, S: set<Event>) {
    forall e :: e in es <==> e in S
  }

  /** Every order of submission leaves the same events stored. */
  ghost predicate OrderFree(S: set<Event>) {
    forall es, es' :: Lists(es, S) && Lists(es', S) ==> SameContent(Apply(map[], es), Apply(map[], es'))
  }

  // ---------------------------------------------------------------------------
  // Every order of a settled set leads to the same events

  lemma BeatsTotal(a: Event, b: Event)
    requires a.id != b.id
    ensures Beats(a, b) != Beats(b, a)
  {
    LessTotal(a.id, b.id);
    if Less(a.id, b.id) { LessAsymmetric(a.id, b.id); } else { LessAsymmetric(b.id, a.id); }
  }

  lemma BeatsTransitive(a: Event, b: Event, c: Event)
    requires Beats(a, b) && Beats(b, c)
    ensures Beats(a, c)
  {
    if Less(a.id, b.id) && Less(b.id, c.id) { LessTransitive(a.id, b.id, c.id); }
  }

  /** Every occupied slot has a best event. */
  lemma {:induction false} BestExists(S: set<Event>, e: Event) returns (b: Event)
    requires Coherent(S) && e in S && SlotOf(e).Some?
    ensures b in S && SameSlot(e, b) && Best(S, b)
    decreases |S|
  {
    if x :| x in S && SameSlot(e, x) && x != e {
      if Beats(e, x) {
        var T := S - {x};
        b := BestExists(T, e);
        assert Beats(b, x) by { if b != e { BeatsTransitive(b, e, x); } }
      } else {
        var T := S - {e};
        BeatsTotal(e, x);
        b := BestExists(T, x);
        assert Beats(b, e) by { if b != x { BeatsTransitive(b, x, e); } }
      }
    } else {
      b := e;
    }
  }

  /** What holds after the events of `T` have been written, on the way to `S`: those of
      them that survive are there. */
  ghost predicate OnTheWay(db: Table, T: set<Event>, S: set<Event>) {
    && StoreInv(db)
    && (forall l :: l in db ==> db[l] in T)
    && (forall e :: e in T && Survives(S, e) ==> Stored(db, e))
  }

  lemma NoSlotForDeletions(e: Event)
    requires IsDeletion(e.kind)
    ensures SlotOf(e).None?
  {
  }

  /** An event already stored stays stored unless the new one replaces or targets it. */
  lemma StaysStored(db: Table, e: Event, x: Event)
    requires Stored(db, x) && !(SameSlot(e, x) && Beats(e, x)) && !Targets(e, x)
    ensures Stored(WriteOne(db, e), x)
  {
    var l :| l in db && db[l] == x;
    if StatusOf(db, e) == Written {
      WriteAdds(db, e);
      assert !Victim(db, e, l);
      assert WriteOne(db, e)[l] == x;
    }
  }

  lemma WrittenIsStored(db: Table, e: Event)
    requires StatusOf(db, e) == Written
    ensures Stored(WriteOne(db, e), e)
  {
    WriteAdds(db, e);
  }

  lemma SurvivorStays(db: Table, S: set<Event>, e: Event, x: Event)
    requires Coherent(S) && e in S && x != e && Survives(S, x) && Stored(db, x)
    ensures Stored(WriteOne(db, e), x)
  {
    if SameSlot(e, x) { BeatsTotal(x, e); }
    StaysStored(db, e, x);
  }

  lemma SurvivorAccepted(db: Table, T: set<Event>, S: set<Event>, e: Event)
    requires OnTheWay(db, T, S) && T <= S && Coherent(S) && Survives(S, e)
    ensures Stored(WriteOne(db, e), e)
  {
    if HasId(db, e.id) {
      var l :| l in db && db[l].id == e.id;
      assert db[l] == e;
    } else {
      assert !Tombstoned(db, e) && !Outranked(db, e);
      WrittenIsStored(db, e);
    }
  }

  lemma OnTheWayStep(db: Table, T: set<Event>, S: set<Event>, e: Event)
    requires OnTheWay(db, T, S) && T <= S && e in S && Coherent(S)
    ensures OnTheWay(WriteOne(db, e), T + {e}, S)
  {
    var db', T' := WriteOne(db, e), T + {e};
    WriteKeepsInv(db, e);
    forall l | l in db' ensures db'[l] in T' {
      if StatusOf(db, e) == Written { WriteAdds(db, e); }
    }
    forall x | x in T' && Survives(S, x) ensures Stored(db', x) {
      if x == e { SurvivorAccepted(db, T, S, e); } else { SurvivorStays(db, S, e, x); }
    }
  }

  ghost function Elements(es: seq<Event>): (S: set<Event>)
    ensures forall e :: e in S <==> e in es
  {
    set e | e in es
  }

  lemma {:induction false} OnTheWayAll(es: seq<Event>, S: set<Event>)
    requires Elements(es) <= S && Coherent(S)
    ensures OnTheWay(Apply(map[], es), Elements(es), S)
    decreases |es|
  {
    if es != [] {
      var n := |es| - 1;
      assert Elements(es) == Elements(es[..n]) + {es[n]};
      OnTheWayAll(es[..n], S);
      OnTheWayStep(Apply(map[], es[..n]), Elements(es[..n]), S, es[n]);
    }
  }

  /** Once the deletion that settles it has come by, an event is not stored. */
  lemma FirmIsGone(db: Table, T: set<Event>, S: set<Event>, d: Event, x: Event)
    requires OnTheWay(db, T, S) && T <= S && d in T && Targets(d, x) && !Targeted(S, d)
    ensures !Stored(db, x)
  {
    NoSlotForDeletions(d);
    assert Survives(S, d) && Stored(db, d);
    var m :| m in db && db[m] == d;
    forall l | l in db ensures db[l] != x {
      assert l != m ==> !Targets(db[m], db[l]);
    }
  }

  lemma OneStoredPerSlot(db: Table, a: Event, b: Event)
    requires SlotsUnique(db) && Stored(db, a) && Stored(db, b) && SameSlot(a, b)
    ensures a == b
  {
    var l :| l in db && db[l] == a;
    var m :| m in db && db[m] == b;
    assert SameSlot(db[l], db[m]);
  }

  lemma StoredIsNotFirm(db: Table, S: set<Event>, e: Event)
    requires OnTheWay(db, S, S) && Stored(db, e)
    ensures e in S && !Firm(S, e)
  {
    if Firm(S, e) {
      var d :| d in S && Targets(d, e) && !Targeted(S, d);
      FirmIsGone(db, S, S, d, e);
    }
  }

  lemma StoredSurvives(db: Table, S: set<Event>, e: Event)
    requires OnTheWay(db, S, S) && Coherent(S) && Settled(S) && Stored(db, e)
    ensures Survives(S, e)
  {
    StoredIsNotFirm(db, S, e);
    if SlotOf(e).Some? {
      var b := BestExists(S, e);
      assert SameSlot(b, e);
      if !Targeted(S, b) { OneStoredPerSlot(db, e, b); }
    }
  }

  /** Where a settled set ends up, in any order. */
  lemma SettledOutcome(es: seq<Event>, S: set<Event>, e: Event)
    requires Lists(es, S) && Coherent(S) && Settled(S)
    ensures Stored(Apply(map[], es), e) <==> Survives(S, e)
  {
    var db := Apply(map[], es);
    assert Elements(es) == S;
    OnTheWayAll(es, S);
    if Stored(db, e) { StoredSurvives(db, S, e); }
  }

  // ---------------------------------------------------------------------------
  // A set that is not settled has two orders that differ

  /** Every event once. */
  ghost function Listing(S: set<Event>): (es: seq<Event>)
    ensures Lists(es, S) && |es| == |S|
    decreases |S|
  {
    if S == {} then []
    else
      var x :| x in S;
      assert forall e :: e in S <==> e == x || e in S - {x};
      [x] + Listing(S - {x})
  }

  /** An event that gets into the store if it comes last: no deletion that can stay
      targets it, and nothing that can stay in its slot beats it. */
  ghost predicate Contender(S: set<Event>, y: Event) {
    && y in S && !Firm(S, y)
    && (forall d :: d in S && Targets(d, y) ==> Firm(S, d))
    && forall z :: z in S && SameSlot(y, z) && z != y ==> Firm(S, z) || Beats(y, z)
  }

  /** What is settled without `y` is settled even before `y` has come. */
  lemma FirmWithout(db: Table, S: set<Event>, y: Event, z: Event)
    requires OnTheWay(db, S - {y}, S) && z in S && Firm(S, z) && (Targets(z, y) || SlotOf(y).Some?)
    ensures !Stored(db, z)
  {
    var d :| d in S && Targets(d, z) && !Targeted(S, d);
    if SlotOf(y).Some? { NoSlotUnlessRegular(y); }
    FirmIsGone(db, S - {y}, S, d, z);
  }

  lemma NothingAgainst(db: Table, S: set<Event>, y: Event, l: nat)
    requires Coherent(S) && Contender(S, y) && OnTheWay(db, S - {y}, S) && l in db
    ensures db[l].id != y.id && !Targets(db[l], y) && (SameSlot(y, db[l]) ==> Beats(y, db[l]))
  {
    var z := db[l];
    assert z in S && z != y && Stored(db, z);
    if Firm(S, z) && (Targets(z, y) || SlotOf(y).Some?) { FirmWithout(db, S, y, z); }
  }

  lemma LastIsStored(S: set<Event>, y: Event)
    requires Coherent(S) && Contender(S, y)
    ensures Stored(Apply(map[], Listing(S - {y}) + [y]), y)
  {
    var es := Listing(S - {y});
    var db := Apply(map[], es);
    assert Elements(es) == S - {y};
    OnTheWayAll(es, S);
    assert (es + [y])[..|es|] == es;
    ContenderAccepted(db, S, y);
  }

  lemma ContenderAccepted(db: Table, S: set<Event>, y: Event)
    requires Coherent(S) && Contender(S, y) && OnTheWay(db, S - {y}, S)
    ensures Stored(WriteOne(db, y), y)
  {
    forall l | l in db ensures db[l].id != y.id && !Targets(db[l], y) && (SameSlot(y, db[l]) ==> Beats(y, db[l])) {
      NothingAgainst(db, S, y, l);
    }
    assert StatusOf(db, y) == Written;
    WrittenIsStored(db, y);
  }

  lemma NoSlotUnlessRegular(e: Event)
    requires SlotOf(e).Some?
    ensures !IsDeletion(e.kind)
  {
    if IsDeletion(e.kind) { NoSlotForDeletions(e); }
  }

  /** Nothing comes from nowhere. */
  lemma {:induction false} NeverAgain(db: Table, es: seq<Event>, y: Event)
    requires !Stored(db, y) && y !in es
    ensures !Stored(Apply(db, es), y)
    decreases |es|
  {
    if es != [] {
      var n := |es| - 1;
      NeverAgain(db, es[..n], y);
      var d := Apply(db, es[..n]);
      assert es[n] in es;
      if StatusOf(d, es[n]) == Written { WriteAdds(d, es[n]); }
    }
  }

  lemma ApplyTwo(x: Event, y: Event)
    ensures Apply(map[], [x, y]) == WriteOne(map[1 := x], y)
  {
    assert [x, y][..1] == [x] && [x][..0] == [];
    assert MaxLevId(map[]) == 0 && Apply(map[], []) == map[];
    WriteAdds(map[], x);
    assert WriteOne(map[], x) == map[1 := x];
    assert Apply(map[], [x]) == map[1 := x];
  }

  /** A target written first is gone once its deletion has come second. */
  lemma DiesByDeletion(y: Event, d: Event)
    requires Targets(d, y) && !Targets(y, d) && y.id != d.id
    ensures !Stored(Apply(map[], [y, d]), y)
  {
    ApplyTwo(y, d);
    var db: Table := map[1 := y];
    NoSlotForDeletions(d);
    assert StatusOf(db, d) == Written;
    WriteAdds(db, d);
    assert Victim(db, d, 1);
  }

  /** An event that comes after a better one of its slot is not stored. */
  lemma DiesByRank(b: Event, y: Event)
    requires SameSlot(b, y) && Beats(b, y) && b.id != y.id
    ensures !Stored(Apply(map[], [b, y]), y)
  {
    ApplyTwo(b, y);
    BeatsTotal(b, y);
    var db: Table := map[1 := b];
    assert SameSlot(y, db[1]);
    assert StatusOf(db, y) != Written;
  }

  /** An order in which `y` is there in the end, and one in which it is not. */
  ghost predicate Differ(S: set<Event>, es: seq<Event>, es': seq<Event>, y: Event) {
    && Lists(es, S) && Lists(es', S) && |es| == |es'| == |S|
    && Stored(Apply(map[], es), y) && !Stored(Apply(map[], es'), y)
  }

  lemma FirstThenRest(S: set<Event>, T: set<Event>, first: seq<Event>)
    requires T <= S && Lists(first, T) && |first| == |T|
    ensures Lists(first + Listing(S - T), S) && |first + Listing(S - T)| == |S|
  {
    assert |S - T| == |S| - |T|;
    var es := first + Listing(S - T);
    forall e ensures e in es <==> e in S { assert e in es <==> e in first || e in Listing(S - T); }
  }

  lemma RestThenLast(S: set<Event>, y: Event)
    requires y in S
    ensures Lists(Listing(S - {y}) + [y], S) && |Listing(S - {y}) + [y]| == |S|
  {
    assert |S - {y}| == |S| - 1;
    var es := Listing(S - {y}) + [y];
    forall e ensures e in es <==> e in S { assert e in es <==> e in Listing(S - {y}) || e == y; }
  }

  lemma NotAfter(first: seq<Event>, rest: seq<Event>, y: Event)
    requires !Stored(Apply(map[], first), y) && y !in rest
    ensures !Stored(Apply(map[], first + rest), y)
  {
    ApplyConcat(map[], first, rest);
    NeverAgain(Apply(map[], first), rest, y);
  }

  lemma TwoFirst(S: set<Event>, y: Event, a: Event, b: Event) returns (es: seq<Event>, es': seq<Event>)
    requires Coherent(S) && Contender(S, y) && a in S && b in S && a != b && (y == a || y == b)
    requires !Stored(Apply(map[], [a, b]), y)
    ensures Differ(S, es, es', y)
  {
    es := Listing(S - {y}) + [y];
    LastIsStored(S, y);
    RestThenLast(S, y);
    es' := StartingWith(S, a, b, y);
  }

  /** All events in an order that starts with these two, after which `y` is not stored. */
  lemma StartingWith(S: set<Event>, a: Event, b: Event, y: Event) returns (es: seq<Event>)
    requires a in S && b in S && a != b && (y == a || y == b) && !Stored(Apply(map[], [a, b]), y)
    ensures Lists(es, S) && |es| == |S| && !Stored(Apply(map[], es), y)
  {
    es := [a, b] + Listing(S - {a, b});
    FirstThenRest(S, {a, b}, [a, b]);
    assert y !in Listing(S - {a, b});
    NotAfter([a, b], Listing(S - {a, b}), y);
  }

  /** The uppermost of the slotless targets that are not firm. */
  lemma SlotlessCulprit(S: set<Event>, U: set<Event>) returns (y: Event, d: Event)
    requires Coherent(S) && Acyclic(S) && U != {}
    requires forall e :: e in U <==> e in S && Targeted(S, e) && !Firm(S, e) && SlotOf(e).None?
    ensures Contender(S, y) && d in S && Targets(d, y)
  {
    assert U <= S;
    y :| y in U && !Targeted(U, y);
    d :| d in S && Targets(d, y);
    forall x | x in S && Targets(x, y) ensures Firm(S, x) {
      NoSlotForDeletions(x);
      assert x !in U;
    }
  }

  /** The best of the events of a slot that are not firm. */
  lemma SlotCulprit(S: set<Event>, x: Event) returns (y: Event)
    requires Coherent(S) && x in S && SlotOf(x).Some? && !Firm(S, x)
    requires forall e :: e in S && Targeted(S, e) && SlotOf(e).None? ==> Firm(S, e)
    ensures SameSlot(x, y) && Contender(S, y)
  {
    var N := set e | e in S && SameSlot(x, e) && !Firm(S, e);
    y := BestExists(N, x);
    forall d | d in S && Targets(d, y) ensures Firm(S, d) {
      NoSlotForDeletions(d);
      assert Targeted(S, d);
    }
    forall z | z in S && SameSlot(y, z) && z != y ensures Firm(S, z) || Beats(y, z) {
      if !Firm(S, z) { assert z in N; }
    }
  }

  lemma NoLoop(S: set<Event>, d: Event, y: Event)
    requires Acyclic(S) && d in S && y in S && Targets(d, y)
    ensures d != y && !Targets(y, d)
  {
    var T := {d, y};
    assert T <= S && T != {};
    var e :| e in T && !Targeted(T, e);
    assert d in T && y in T;
  }

  /** A set that is not settled: two orders of its events, each once, that leave
      different events stored. */
  lemma UnsettledDiffers(S: set<Event>) returns (es: seq<Event>, es': seq<Event>, y: Event)
    requires Coherent(S) && Acyclic(S) && !Settled(S)
    ensures Differ(S, es, es', y)
  {
    var U := set e | e in S && Targeted(S, e) && !Firm(S, e) && SlotOf(e).None?;
    var d;
    if U != {} {
      y, d := SlotlessCulprit(S, U);
      NoLoop(S, d, y);
      DiesByDeletion(y, d);
      es, es' := TwoFirst(S, y, y, d);
    } else {
      assert forall e :: e in S && Targeted(S, e) && SlotOf(e).None? ==> e !in U;
      var b, x := UnsettledSlot(S);
      y := SlotCulprit(S, x);
      if y == b {
        d :| d in S && Targets(d, b);
        NoLoop(S, d, y);
        DiesByDeletion(y, d);
        es, es' := TwoFirst(S, y, y, d);
      } else {
        assert SameSlot(b, y);
        DiesByRank(b, y);
        es, es' := TwoFirst(S, y, b, y);
      }
    }
  }

  lemma UnsettledSlot(S: set<Event>) returns (b: Event, x: Event)
    requires !Settled(S) && forall e :: e in S && Targeted(S, e) && SlotOf(e).None? ==> Firm(S, e)
    ensures b in S && Targeted(S, b) && Best(S, b) && x in S && SameSlot(b, x) && !Firm(S, x)
  {
    b :| b in S && Targeted(S, b) && (SlotOf(b).None? || Best(S, b)) &&
      !(Firm(S, b) && forall z :: z in S && SameSlot(b, z) ==> Firm(S, z));
    if Firm(S, b) { x :| x in S && SameSlot(b, x) && !Firm(S, x); } else { x := b; }
  }

  /** The store ends up the same whatever the order exactly when every deletion that
      hits an event without a slot, or the best event of a slot, cannot be undone,
      and in the second case hits the whole slot. */
  lemma OrderFreeIffSettled(S: set<Event>)
    requires Coherent(S) && Acyclic(S)
    ensures OrderFree(S) <==> Settled(S)
  {
    if Settled(S) {
      forall es, es' | Lists(es, S) && Lists(es', S) ensures SameContent(Apply(map[], es), Apply(map[], es')) {
        forall e ensures Stored(Apply(map[], es), e) <==> Stored(Apply(map[], es'), e) {
          SettledOutcome(es, S, e);
          SettledOutcome(es', S, e);
        }
      }
    } else {
      var es, es', y := UnsettledDiffers(S);
      assert !SameContent(Apply(map[], es), Apply(map[], es'));
    }
  }

  // ---------------------------------------------------------------------------
  // No deletion of a deletion

  ghost predicate NoMetaDeletion(S: set<Event>) {
    forall d, e :: d in S && e in S && Targets(d, e) ==> !IsDeletion(e.kind)
  }

  /** Wherever the best event of a slot is deleted, so is the rest of the slot. */
  ghost predicate Stable(S: set<Event>) {
    forall b, x :: b in S && x in S && Best(S, b) && Targeted(S, b) && SameSlot(b, x) ==> Targeted(S, x)
  }

  lemma TargetedIsFirm(S: set<Event>, e: Event)
    requires NoMetaDeletion(S)
    ensures e in S ==> (Targeted(S, e) <==> Firm(S, e))
  {
  }

  lemma NoMetaIsAcyclic(S: set<Event>)
    requires NoMetaDeletion(S)
    ensures Acyclic(S)
  {
    forall T | T <= S && T != {} ensures exists e :: e in T && !Targeted(T, e) {
      var e :| e in T && (IsDeletion(e.kind) || forall d :: d in T ==> !IsDeletion(d.kind)) by {
        var x :| x in T;
        if d :| d in T && IsDeletion(d.kind) { assert d in T; } else { assert x in T; }
      }
      assert !Targeted(T, e);
    }
  }

  /** Then the order does not matter exactly when no slot loses its best event to a
      deletion while an event that no deletion targets was submitted for it. */
  lemma OrderFreeIffStable(S: set<Event>)
    requires Coherent(S) && NoMetaDeletion(S)
    ensures OrderFree(S) <==> Stable(S)
  {
    NoMetaIsAcyclic(S);
    OrderFreeIffSettled(S);
    forall e ensures e in S ==> (Targeted(S, e) <==> Firm(S, e)) { TargetedIsFirm(S, e); }
  }

  // ---------------------------------------------------------------------------
  // Batches

  ghost function ApplyBatches(db: Table, batches: seq<seq<Event>>): (db': Table) {
    if batches == [] then db else Apply(ApplyBatches(db, batches[..|batches| - 1]), batches[|batches| - 1])
  }

  lemma {:induction false} BatchesFlatten(db: Table, batches: seq<seq<Event>>)
    ensures ApplyBatches(db, batches) == Apply(db, Flatten(batches))
    decreases |batches|
  {
    if batches != [] {
      var n := |batches| - 1;
      BatchesFlatten(db, batches[..n]);
      ApplyConcat(db, Flatten(batches[..n]), batches[n]);
    }
  }

  /** Without kind-5 events, any batching in any order stores every event but those that
      have to give way: of the events of one author, one replaceable kind and one first
      d-tag, the one with the greatest time remains, and of several of that time the one
      with the lowest id. */
  lemma NoDeletionsOutcome(batches: seq<seq<Event>>, S: set<Event>, e: Event)
    requires Lists(Flatten(batches), S) && Coherent(S)
    requires forall x :: x in S ==> x.kind != 5
    ensures Stored(ApplyBatches(map[], batches), e) <==>
      && e in S
      && forall x ::
          && x in S && x != e && x.pubkey == e.pubkey && x.kind == e.kind
          && (e.kind in {0, 3, 41} || 10_000 <= e.kind < 20_000 || 30_000 <= e.kind < 40_000)
          && FirstD(e.tags).Some? && FirstD(x.tags) == FirstD(e.tags)
          ==> x.createdAt < e.createdAt || (x.createdAt == e.createdAt && Less(e.id, x.id))
  {
    BatchesFlatten(map[], batches);
    SettledOutcome(Flatten(batches), S, e);
  }

  /** The same holds with deletions that target only events without a slot. */
  lemma RegularDeletionsOutcome(batches: seq<seq<Event>>, S: set<Event>, e: Event)
    requires Lists(Flatten(batches), S) && Coherent(S) && NoMetaDeletion(S)
    requires forall d, x :: d in S && x in S && Targets(d, x) ==> SlotOf(x).None?
    ensures Stored(ApplyBatches(map[], batches), e) <==> Survives(S, e)
  {
    forall x ensures x in S ==> (Targeted(S, x) <==> Firm(S, x)) { TargetedIsFirm(S, x); }
    BatchesFlatten(map[], batches);
    SettledOutcome(Flatten(batches), S, e);
  }

  lemma ApplyThree(x: Event, y: Event, z: Event)
    ensures Apply(map[], [x, y, z]) == WriteOne(WriteOne(map[1 := x], y), z)
  {
    assert [x, y, z][..2] == [x, y];
    ApplyTwo(x, y);
  }

  lemma TargetWrittenFirst(e: Event, d1: Event, d2: Event)
    requires e.id != d1.id && e.id != d2.id && !IsDeletion(e.kind) && Targets(d1, e)
    ensures !Stored(WriteOne(WriteOne(map[1 := e], d1), d2), e)
  {
    var a: Table := map[1 := e];
    NoSlotForDeletions(d1);
    assert StatusOf(a, d1) == Written;
    WriteAdds(a, d1);
    var b := WriteOne(a, d1);
    assert forall l :: l in b ==> b[l] == d1 by { assert Victim(a, d1, 1); }
    if StatusOf(b, d2) == Written { WriteAdds(b, d2); }
  }

  lemma TargetWrittenLast(e: Event, d1: Event, d2: Event)
    requires e.id != d2.id && d1.id != d2.id && SlotOf(e).None? && Targets(d2, d1) && !Targets(d2, e)
    ensures Stored(WriteOne(WriteOne(map[1 := d2], d1), e), e)
  {
    var a: Table := map[1 := d2];
    assert Targets(a[1], d1) && Tombstoned(a, d1);
    assert WriteOne(a, d1) == a;
    assert StatusOf(a, e) == Written;
    WrittenIsStored(a, e);
  }

  /** A set that is not settled: `d1` deletes `e` and `d2` deletes `d1`. If they come in
      this order `e` ends up deleted, if they come in the opposite order it ends up
      stored. */
  lemma DeletedDeletionMatters(e: Event, d1: Event, d2: Event)
    requires e.id != d1.id && e.id != d2.id && d1.id != d2.id
    requires SlotOf(e).None? && !IsDeletion(e.kind) && Targets(d1, e) && Targets(d2, d1) && !Targets(d2, e)
    ensures !Stored(Apply(map[], [e, d1, d2]), e)
    ensures Stored(Apply(map[], [d2, d1, e]), e)
  {
    ApplyThree(e, d1, d2);
    ApplyThree(d2, d1, e);
    TargetWrittenFirst(e, d1, d2);
    TargetWrittenLast(e, d1, d2);
  }
}
