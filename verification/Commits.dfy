/** The writer thread's commit (src/WriterPipeline.h): the batch in hand goes to
    writeEvents, and its results are counted. */
module Commits {
  import opened ByteStrings
  import opened Events
  import opened Packed
  import opened Pipeline
  import Negentropy
  import Store
  import opened Databases
  import opened Writer

  function CountWritten(r: seq<EventToWrite>): (n: nat)
    ensures n <= |r|
  {
    if r == [] then 0 else (if r[0].status == Store.Written then 1 else 0) + CountWritten(r[1..])
  }

  lemma {:induction false} CountWithout(r: seq<EventToWrite>, j: nat)
    requires j < |r|
    ensures CountWritten(r) == CountWritten(r[..j] + r[j + 1..]) + if r[j].status == Store.Written then 1 else 0
    decreases |r|
  {
    if j == 0 {
      assert r[..0] + r[1..] == r[1..];
    } else {
      CountWithout(r[1..], j - 1);
      assert (r[..j] + r[j + 1..])[1..] == r[1..][..j - 1] + r[1..][j..];
    }
  }

  /** The results of a batch in the order of the batch. */
  ghost predicate ResultsOf(evs: seq<EventToWrite>, results: seq<EventToWrite>, r: seq<EventToWrite>) {
    && |results| == |evs| && multiset(results) == multiset(r)
    && forall i :: 0 <= i < |evs| ==> results[i] == evs[i].(status := results[i].status, levId := results[i].levId)
  }

  lemma Without(s: seq<EventToWrite>, j: nat)
    requires j < |s|
    ensures multiset(s) == multiset{s[j]} + multiset(s[..j] + s[j + 1..])
  {
    assert s == s[..j] + [s[j]] + s[j + 1..];
  }

  lemma SameInputsWithout(sorted: seq<EventToWrite>, r: seq<EventToWrite>, j: nat)
    requires j < |r| == |sorted| && SameInputs(sorted, r)
    ensures SameInputs(sorted[..j] + sorted[j + 1..], r[..j] + r[j + 1..])
  {
  }

  lemma OneMoreResult(evs: seq<EventToWrite>, r: seq<EventToWrite>, j: nat, rest: seq<EventToWrite>)
    requires evs != [] && j < |r| && r[j] == evs[0].(status := r[j].status, levId := r[j].levId)
    requires ResultsOf(evs[1..], rest, r[..j] + r[j + 1..]) && CountWritten(rest) == CountWritten(r[..j] + r[j + 1..])
    ensures ResultsOf(evs, [r[j]] + rest, r) && CountWritten([r[j]] + rest) == CountWritten(r)
  {
    Without(r, j);
    CountWithout(r, j);
    assert ([r[j]] + rest)[1..] == rest;
  }

  lemma {:induction false} Reordered(evs: seq<EventToWrite>, sorted: seq<EventToWrite>, r: seq<EventToWrite>) returns (results: seq<EventToWrite>)
    requires multiset(sorted) == multiset(evs) && |r| == |sorted| && SameInputs(sorted, r)
    ensures ResultsOf(evs, results, r) && CountWritten(results) == CountWritten(r)
    decreases |evs|
  {
    if evs == [] {
      assert |multiset(sorted)| == 0;
      results := [];
    } else {
      var j := FirstIn(evs, sorted);
      SameInputsWithout(sorted, r, j);
      var rest := Reordered(evs[1..], sorted[..j] + sorted[j + 1..], r[..j] + r[j + 1..]);
      OneMoreResult(evs, r, j, rest);
      results := [r[j]] + rest;
    }
  }

  lemma FirstIn(evs: seq<EventToWrite>, sorted: seq<EventToWrite>) returns (j: nat)
    requires evs != [] && multiset(sorted) == multiset(evs)
    ensures j < |sorted| && sorted[j] == evs[0] && multiset(sorted[..j] + sorted[j + 1..]) == multiset(evs[1..])
  {
    Without(evs, 0);
    assert evs[..0] + evs[1..] == evs[1..];
    assert evs[0] in multiset(sorted);
    j :| 0 <= j < |sorted| && sorted[j] == evs[0];
    Without(sorted, j);
    SameRest(evs[0], multiset(evs[1..]), multiset(sorted[..j] + sorted[j + 1..]));
  }

  lemma SameRest(x: EventToWrite, a: multiset<EventToWrite>, b: multiset<EventToWrite>)
    requires multiset{x} + a == multiset{x} + b
    ensures a == b
  {
    forall y ensures a[y] == b[y] { assert (multiset{x} + a)[y] == (multiset{x} + b)[y]; }
  }

  /** The inputs whose entries were written. */
  ghost function AcceptedIn(items: seq<Item>, results: seq<EventToWrite>): (s: set<nat>)
    requires |items| == |results| && forall x :: x in items ==> x.Item?
  {
    set i | 0 <= i < |items| && results[i].status == Store.Written :: items[i].n
  }

  lemma {:induction false} CountedAlike(items: seq<Item>, results: seq<EventToWrite>, accepted: set<nat>)
    requires |items| == |results|
    requires forall i :: 0 <= i < |items| ==> items[i].Item? && (items[i].n in accepted <==> results[i].status == Store.Written)
    ensures |Accepted(items, accepted)| == CountWritten(results) && |Refused(items, accepted)| == |results| - CountWritten(results)
    decreases |items|
  {
    if items != [] { CountedAlike(items[1..], results[1..], accepted); }
  }

  lemma {:induction false} NamedTwice(items: seq<Item>, i: nat, j: nat)
    requires i < j < |items| && items[i].Item? && items[j].Item? && items[i].n == items[j].n
    ensures ItemNames(items)[items[i].n] >= 2
    decreases |items|
  {
    if i > 0 { NamedTwice(items[1..], i - 1, j - 1); } else { ItemIsNamed(items[1..], j - 1); }
  }

  lemma InHandOnce(s: State, n: nat)
    requires Inv(s)
    ensures ItemNames(s.toProc)[n] <= 1
  {
    assert Times(TallyOf(s), n) <= 1;
  }

  /** No input is in hand twice. */
  lemma DistinctInHand(s: State)
    requires Inv(s)
    ensures forall i, j :: 0 <= i < j < |s.toProc| ==> s.toProc[i].Item? && s.toProc[j].Item? && s.toProc[i].n != s.toProc[j].n
  {
    forall i, j | 0 <= i < j < |s.toProc| ensures s.toProc[i].Item? && s.toProc[j].Item? && s.toProc[i].n != s.toProc[j].n {
      assert s.toProc[i] in s.toProc && s.toProc[j] in s.toProc;
      InHandOnce(s, s.toProc[i].n);
      if s.toProc[i].n == s.toProc[j].n { NamedTwice(s.toProc, i, j); }
    }
  }

  /** The entry holds the event. */
  ghost predicate Holds(x: Item, e: Event) {
    match x
    case End => false
    case Item(_, packed) => Fits(e) && Pack(e) == packed && Store.EventOk(e)
  }

  /** The events that the batch in hand is made of. */
  ghost predicate HandOf(toProc: seq<Item>, events: seq<Event>) {
    && |events| == |toProc|
    && (forall i :: 0 <= i < |events| ==> Holds(toProc[i], events[i]))
    && forall i, j :: 0 <= i < j < |events| && events[i].id == events[j].id ==> events[i] == events[j]
  }

  /** The batch that is read from the queue's entries, as far as it goes. */
  ghost predicate BatchOf(evs: seq<EventToWrite>, events: seq<Event>, jsons: seq<Bytes>) {
    && |evs| <= |events| && |events| == |jsons|
    && forall i :: 0 <= i < |evs| ==> evs[i] == EventToWrite(events[i], jsons[i], Store.Pending, 0)
  }

  lemma OneMoreRead(evs: seq<EventToWrite>, events: seq<Event>, jsons: seq<Bytes>)
    requires BatchOf(evs, events, jsons) && |evs| < |events|
    ensures BatchOf(evs + [EventToWrite(events[|evs|], jsons[|evs|], Store.Pending, 0)], events, jsons)
  {
  }

  method ViewOne(x: Item, ghost event: Event) returns (e: Event)
    requires Holds(x, event)
    ensures e == event
  {
    var r := View(x.packed);
    PackRoundTrip(event, r);
    e := r.value;
  }

  /** The queue's entries as writeEvents reads them. */
  method ViewAll(toProc: seq<Item>, jsons: seq<Bytes>, ghost events: seq<Event>) returns (evs: seq<EventToWrite>)
    requires |jsons| == |events| == |toProc| && forall i :: 0 <= i < |toProc| ==> Holds(toProc[i], events[i])
    ensures |evs| == |toProc| && BatchOf(evs, events, jsons)
  {
    evs := [];
    for i := 0 to |toProc|
      invariant |evs| == i && BatchOf(evs, events, jsons)
    {
      var e := ViewOne(toProc[i], events[i]);
      OneMoreRead(evs, events, jsons);
      evs := evs + [EventToWrite(e, jsons[i], Store.Pending, 0)];
    }
  }

  method CountResults(r: seq<EventToWrite>) returns (written: nat, dups: nat)
    ensures written == CountWritten(r) && dups == |r| - written
  {
    written, dups := 0, 0;
    for i := 0 to |r|
      invariant written + CountWritten(r[i..]) == CountWritten(r) && dups == i - written
    {
      assert r[i..][1..] == r[i + 1..];
      if r[i].status == Store.Written { written := written + 1; } else { dups := dups + 1; }
    }
  }

  lemma HandDecodes(toProc: seq<Item>, events: seq<Event>)
    requires HandOf(toProc, events)
    ensures forall x :: x in toProc ==> x.Item? && Decodes(x.packed)
  {
    forall x | x in toProc ensures x.Item? && Decodes(x.packed) {
      var i :| 0 <= i < |toProc| && toProc[i] == x;
      assert Holds(x, events[i]);
    }
  }

  lemma CommitCounts(s: State, accepted: set<nat>, stored: seq<Negentropy.FilterJson>)
    requires s.phase.Committing? && Negentropy.AllLoad(stored) && forall x :: x in s.toProc ==> x.Item? && Decodes(x.packed)
    ensures Enabled(s, Commit(accepted, accepted, stored)) && !Faulty(s, Commit(accepted, accepted, stored))
    ensures
      var s' := After(s, Commit(accepted, accepted, stored));
      && s'.totalWritten == s.totalWritten + |Accepted(s.toProc, accepted)|
      && s'.totalDups == s.totalDups + |Refused(s.toProc, accepted)|
  {
  }

  /** The pipeline's step for a batch: it accepts the inputs whose entries writeEvents has
      marked as written and no others, and counts them as written and the rest as
      duplicates. */
  lemma CommitIsStep(s: State, evs: seq<EventToWrite>, sorted: seq<EventToWrite>, r: seq<EventToWrite>,
                     events: seq<Event>, stored: seq<Negentropy.FilterJson>)
      returns (results: seq<EventToWrite>, accepted: set<nat>)
    requires Inv(s) && s.phase.Committing? && HandOf(s.toProc, events) && Negentropy.AllLoad(stored)
    requires |r| == |sorted| == |evs| == |s.toProc| && multiset(sorted) == multiset(evs) && SameInputs(sorted, r)
    ensures ResultsOf(evs, results, r)
    ensures forall i :: 0 <= i < |evs| ==> (s.toProc[i].n in accepted <==> results[i].status == Store.Written)
    ensures Enabled(s, Commit(accepted, accepted, stored)) && !Faulty(s, Commit(accepted, accepted, stored))
    ensures
      var s' := After(s, Commit(accepted, accepted, stored));
      s'.totalWritten == s.totalWritten + CountWritten(r) && s'.totalDups == s.totalDups + |r| - CountWritten(r)
  {
    results := Reordered(evs, sorted, r);
    accepted := AcceptedIn(s.toProc, results);
    DistinctInHand(s);
    CountedAlike(s.toProc, results, accepted);
    HandDecodes(s.toProc, events);
    CommitCounts(s, accepted, stored);
  }

  lemma InProcessingOrder(evs: seq<EventToWrite>, r: seq<EventToWrite>) returns (sorted: seq<EventToWrite>)
    requires |r| == |evs| && Processed(evs, r)
    ensures |sorted| == |evs| && multiset(sorted) == multiset(evs) && SameInputs(sorted, r)
  {
    sorted :| SortedBatch(sorted) && multiset(sorted) == multiset(evs) && SameInputs(sorted, r);
    assert |multiset(sorted)| == |multiset(evs)|;
  }

  lemma HandIsBatch(toProc: seq<Item>, events: seq<Event>, evs: seq<EventToWrite>, jsons: seq<Bytes>)
    requires HandOf(toProc, events) && BatchOf(evs, events, jsons) && |evs| == |events|
    ensures BatchOk(evs)
  {
  }

  /** The writer thread's commit, on a batch that decodes: the store changes as writeEvents
      says, the two counters by the numbers of its results, and the pipeline takes the
      step in which exactly those inputs are accepted whose entries it has written. */
  method CommitBatch(db: Database, cache: NegentropyFilterCache, toProc: seq<Item>, jsons: seq<Bytes>,
                     ghost s: State, ghost events: seq<Event>, ghost stored: seq<Negentropy.FilterJson>)
      returns (r: seq<EventToWrite>, written: nat, dups: nat, ghost results: seq<EventToWrite>, ghost accepted: set<nat>)
    requires db.Valid() && db.FiltersOk() && cache.Consistent(db.negFilters, db.negentropyModificationCounter)
    requires Inv(s) && s.phase.Committing? && toProc == s.toProc && toProc != [] && |jsons| == |toProc|
    requires HandOf(toProc, events) && Negentropy.AllLoad(stored)
    modifies db`events, db`payloads, db`trees, cache
    ensures db.Valid() && cache.Consistent(db.negFilters, db.negentropyModificationCounter)
    ensures db.events == Store.Apply(old(db.events), EventsOf(r)) && Reported(old(db.events), EventsOf(r), r)
    ensures multiset(results) == multiset(r) && |results| == |toProc|
    ensures forall i :: 0 <= i < |toProc| ==>
      && results[i].event == events[i] && results[i].json == jsons[i]
      && (toProc[i].n in accepted <==> results[i].status == Store.Written)
    ensures Enabled(s, Commit(accepted, accepted, stored)) && !Faulty(s, Commit(accepted, accepted, stored))
    ensures
      var s' := After(s, Commit(accepted, accepted, stored));
      s'.totalWritten == s.totalWritten + written && s'.totalDups == s.totalDups + dups
  {
    var evs := ViewAll(toProc, jsons, events);
    HandIsBatch(toProc, events, evs, jsons);
    r := WriteEvents(db, cache, evs);
    written, dups := CountResults(r);
    ghost var sorted := InProcessingOrder(evs, r);
    results, accepted := CommitIsStep(s, evs, sorted, r, events, stored);
  }
}
