/** The negentropy command: adding a filter and building its tree
    (src/apps/dbutils/cmd_negentropy.cpp). */
module Negentropy {
  import opened Results
  import opened Events
  import Sequences
  import opened Filters
  import opened Plans
  import opened Cursors
  import opened Store
  import opened Databases
  import opened Scans
  import opened Queries

  /** A cache that was consistent is detected as stale once the counter has moved,
      whatever happened to the filter table. */
  lemma StaleCacheDetected(cache: NegentropyFilterCache, table: map<nat, Filter>, counter: nat, table': map<nat, Filter>, counter': nat)
    requires cache.Consistent(table, counter) && counter < counter'
    ensures cache.Consistent(table', counter') && cache.modificationCounter != counter'
  {
  }

  method NextTreeId(table: map<nat, Filter>) returns (id: nat)
    ensures id >= 1 && forall t :: t in table ==> t < id
  {
    id := 1;
    var left := table.Keys;
    while left != {}
      invariant id >= 1 && left <= table.Keys
      invariant forall t :: t in table && t !in left ==> t < id
      decreases |left|
    {
      var t :| t in left;
      if t >= id { id := t + 1; }
      left := left - {t};
    }
  }

  /** `negentropy add`: a new filter with an empty tree. Filters are compared in
      compiled form. An error aborts the transaction. */
  method AddTree(db: Database, f: Filter) returns (r: Result<nat>)
    requires db.Valid() && db.FiltersOk() && WellFormed(f) && AtMostItems(f, SCAN_LIMIT)
    modifies db`negFilters, db`negentropyModificationCounter, db`trees
    ensures db.Valid() && db.FiltersOk()
    ensures r.Ok? <==> f.since == 0 && f.until == MAX_U64 && !f.neverMatch && f !in old(db.negFilters).Values
    ensures r.Err? ==> unchanged(db)
    ensures r.Ok? ==>
      && r.value !in old(db.negFilters)
      && db.negFilters == old(db.negFilters)[r.value := f]
      && db.trees == old(db.trees)[r.value := {}]
      && db.negentropyModificationCounter == old(db.negentropyModificationCounter) + 1
  {
    if f.neverMatch { return Err("filter will never match"); }
    if f.since != 0 || f.until != MAX_U64 { return Err("single filters should not have since/until"); }
    if f in db.negFilters.Values { return Err("filter already exists"); }
    var id := NextTreeId(db.negFilters);
    db.negentropyModificationCounter := db.negentropyModificationCounter + 1;
    db.negFilters := db.negFilters[id := f];
    db.trees := db.trees[id := {}];
    return Ok(id);
  }

  /** What a build puts into a tree: the first `limit` matching events, newest
      first, as a query finds them. */
  ghost predicate BuiltFrom(tree: Tree, tree0: Tree, f: Filter, events: Table) {
    forall k :: k in tree <==> k in tree0 || exists l :: l in Answer(f, events, MAX_U64) && KeyOf(events[l]) == k
  }

  ghost function MatchingSet(f: Filter, events: Table): (s: set<nat>) {
    set l | l in events && Wanted(f, events, MAX_U64, l)
  }

  /** Everything a query answers is a stored event that matches, and with a limit that
      is large enough it answers all of them. */
  lemma AnswerMembers(f: Filter, events: Table)
    ensures forall l :: l in Answer(f, events, MAX_U64) ==> l in events && Wanted(f, events, MAX_U64, l)
    ensures |MatchingSet(f, events)| <= f.limit ==> forall l :: Wanted(f, events, MAX_U64, l) ==> l in Answer(f, events, MAX_U64)
  {
    var all := NewestFirst(events, MatchingSet(f, events));
    assert forall l :: l in Answer(f, events, MAX_U64) ==> l in all;
  }

  /** A tree that was empty before it was built holds every matching event exactly
      when the filter's limit is no smaller than their number. */
  lemma BuildIsFullIff(tree: Tree, f: Filter, events: Table)
    requires UniqueIds(events) && TableOk(events) && BuiltFrom(tree, {}, f, events)
    ensures TreeSound(tree, f, events)
    ensures TreeFull(tree, f, events) <==> |MatchingSet(f, events)| <= f.limit
  {
    AnswerMembers(f, events);
    var s := MatchingSet(f, events);
    var all := NewestFirst(events, s);
    if |s| > f.limit {
      var l := all[f.limit];
      assert l in all && l in s && Matches(f, events[l]);
    }
  }

  /** The records a build collects: what the filter's query sends, in one read. */
  method QueryAll(f: Filter, snap: Snapshot) returns (levIds: seq<nat>)
    requires Runnable(f) && SnapshotOk(snap)
    ensures forall l :: l in levIds <==> l in Answer(f, snap.events, MAX_U64)
  {
    var batches := RunQuery([f], MAX_U64, [], snap, _ => Unlimited, snap.events, snap.events);
    levIds := Sequences.Flatten(batches);
    SnapshotAnswer([f], MAX_U64, levIds, snap.events);
    var lists := [Answer(f, snap.events, MAX_U64)];
    assert seq(|[f]|, i requires 0 <= i < |[f]| => Answer([f][i], snap.events, MAX_U64)) == lists;
    forall l ensures l in levIds <==> l in Answer(f, snap.events, MAX_U64) {
      InOrderHas(lists, l);
      assert lists[0] == Answer(f, snap.events, MAX_U64);
    }
  }

  /** Enters what the query finds into the tree. */
  method FillTree(tree0: Tree, f: Filter, snap: Snapshot) returns (tree: Tree)
    requires Runnable(f) && SnapshotOk(snap) && TreeSound(tree0, f, snap.events)
    ensures BuiltFrom(tree, tree0, f, snap.events) && TreeSound(tree, f, snap.events)
    ensures TreeFull(tree0, f, snap.events) ==> TreeFull(tree, f, snap.events)
    ensures |MatchingSet(f, snap.events)| <= f.limit ==> TreeFull(tree, f, snap.events)
  {
    var events := snap.events;
    var levIds := QueryAll(f, snap);
    AnswerMembers(f, events);
    tree := tree0;
    for i := 0 to |levIds|
      invariant forall k :: k in tree <==> k in tree0 || exists j :: 0 <= j < i && KeyOf(events[levIds[j]]) == k
    {
      assert levIds[i] in levIds;
      tree := tree + {KeyOf(events[levIds[i]])};
    }
    BuildFills(tree, tree0, f, events, levIds);
  }

  /** `negentropy build`: enters the events that the filter's query finds. The tree
      then counts as built unless the filter's limit cut the query short. */
  method BuildTree(db: Database, treeId: nat, snap: Snapshot) returns (found: bool)
    requires db.Valid() && db.FiltersOk() && SnapshotOk(snap) && snap.events == db.events
    modifies db`negentropyModificationCounter, db`trees, db`built
    ensures db.Valid()
    ensures found <==> treeId in db.negFilters
    ensures !found ==> unchanged(db)
    ensures found ==>
      && db.negentropyModificationCounter == old(db.negentropyModificationCounter) + 1
      && db.trees == old(db.trees)[treeId := db.trees[treeId]]
      && BuiltFrom(db.trees[treeId], old(db.trees)[treeId], db.negFilters[treeId], db.events)
      && db.built == (if |MatchingSet(db.negFilters[treeId], db.events)| <= db.negFilters[treeId].limit
                      then old(db.built) + {treeId} else old(db.built))
  {
    if treeId !in db.negFilters { return false; }
    ghost var f := db.negFilters[treeId];
    var tree := FillTree(db.trees[treeId], db.negFilters[treeId], snap);
    InstallTree(db, treeId, tree, |MatchingSet(f, db.events)| <= f.limit);
    return true;
  }

  method InstallTree(db: Database, treeId: nat, tree: Tree, ghost complete: bool)
    requires db.Valid() && treeId in db.negFilters
    requires TreeSound(tree, db.negFilters[treeId], db.events)
    requires complete || treeId in db.built ==> TreeFull(tree, db.negFilters[treeId], db.events)
    modifies db`negentropyModificationCounter, db`trees, db`built
    ensures db.Valid()
    ensures db.negentropyModificationCounter == old(db.negentropyModificationCounter) + 1
    ensures db.trees == old(db.trees)[treeId := tree]
    ensures db.built == if complete then old(db.built) + {treeId} else old(db.built)
  {
    db.negentropyModificationCounter := db.negentropyModificationCounter + 1;
    db.trees := db.trees[treeId := tree];
    db.built := if complete then db.built + {treeId} else db.built;
  }

  lemma BuildFills(tree: Tree, tree0: Tree, f: Filter, events: Table, levIds: seq<nat>)
    requires TreeSound(tree0, f, events) && TableOk(events)
    requires forall l :: l in levIds <==> l in Answer(f, events, MAX_U64)
    requires forall l :: l in levIds ==> l in events
    requires forall k :: k in tree <==> k in tree0 || exists j :: 0 <= j < |levIds| && KeyOf(events[levIds[j]]) == k
    ensures BuiltFrom(tree, tree0, f, events) && TreeSound(tree, f, events)
    ensures TreeFull(tree0, f, events) ==> TreeFull(tree, f, events)
    ensures |MatchingSet(f, events)| <= f.limit ==> TreeFull(tree, f, events)
  {
    AnswerMembers(f, events);
    forall k ensures k in tree <==> k in tree0 || exists l :: l in Answer(f, events, MAX_U64) && KeyOf(events[l]) == k {
      if l :| l in Answer(f, events, MAX_U64) && KeyOf(events[l]) == k {
        var j :| 0 <= j < |levIds| && levIds[j] == l;
        assert KeyOf(events[levIds[j]]) == k;
      }
      if k in tree && k !in tree0 {
        var j :| 0 <= j < |levIds| && KeyOf(events[levIds[j]]) == k;
        assert levIds[j] in Answer(f, events, MAX_U64);
      }
    }
  }

  // ---------------------------------------------------------------------------
  // Filters given as arrays

  /** The filter as it is given and stored: an object, or an array of objects. */
  datatype FilterJson = One(fields: seq<Field>) | Many(objects: seq<seq<Field>>)

  function Objects(j: FilterJson): (r: seq<seq<Field>>) {
    match j
    case One(fields) => [fields]
    case Many(objects) => objects
  }

  predicate JsonOk(j: FilterJson) {
    forall n :: 0 <= n < |Objects(j)| ==> DistinctKeys(Objects(j)[n])
  }

  /** The checks of `negentropy add`, which takes an array for a group of filters. It
      accepts a group of which something is left, and a single filter only if it has no
      bounds in time. */
  method CheckFilter(j: FilterJson, maxFilterLimit: nat) returns (r: Result<seq<Filter>>)
    requires JsonOk(j)
    ensures r.Ok? <==>
      && (forall n :: 0 <= n < |Objects(j)| ==> AcceptedObject(Objects(j)[n]))
      && Kept(Objects(j)) != [] && (|Kept(Objects(j))| == 1 ==> !BoundedInTime(Kept(Objects(j))[0]))
    ensures r.Ok? ==> GroupMeans(r.value, Objects(j), |Objects(j)|) && CompiledFrom(r.value, Kept(Objects(j)))
  {
    r := CompileGroup(Objects(j), maxFilterLimit);
    if r.Err? { return; }
    var fs := r.value;
    if |fs| == 1 && (fs[0].since != 0 || fs[0].until != MAX_U64) { return Err("single filters should not have since/until"); }
    if |fs| == 0 { return Err("filter will never match"); }
  }

  /** freshenCache takes a stored filter for a single object. */
  predicate Loads(j: FilterJson) {
    j.One? && AcceptedObject(j.fields)
  }

  predicate AllLoad(stored: seq<FilterJson>) {
    forall j :: j in stored ==> Loads(j)
  }

  method LoadFilter(j: FilterJson) returns (r: Result<Filter>)
    requires JsonOk(j)
    ensures r.Ok? <==> Loads(j)
  {
    match j
    case One(fields) =>
      assert Objects(j)[0] == fields;
      r := Compile(fields, MAX_U64);
    case Many(_) => r := Err("provided filter is not an object");
  }

  /** The loop of freshenCache over the filter table. */
  method LoadFilters(stored: seq<FilterJson>) returns (r: Result<seq<Filter>>)
    requires forall j :: j in stored ==> JsonOk(j)
    ensures r.Ok? <==> AllLoad(stored)
    ensures r.Ok? ==> |r.value| == |stored|
  {
    var filters: seq<Filter> := [];
    for i := 0 to |stored|
      invariant |filters| == i && AllLoad(stored[..i])
    {
      assert stored[i] in stored && stored[..i + 1] == stored[..i] + [stored[i]];
      var f := LoadFilter(stored[i]);
      if f.Err? { return Err(f.reason); }
      filters := filters + [f.value];
    }
    assert stored[..|stored|] == stored;
    r := Ok(filters);
  }

  /** Once a filter has been added, writes go on exactly if it was not an array. */
  method AddThenWrite(j: FilterJson, stored: seq<FilterJson>, maxFilterLimit: nat) returns (added: bool, loads: bool)
    requires JsonOk(j) && AllLoad(stored) && forall k :: k in stored ==> JsonOk(k)
    ensures added ==> (loads <==> j.One?)
  {
    var checked := CheckFilter(j, maxFilterLimit);
    var loaded := LoadFilters(stored + [j]);
    added, loads := checked.Ok?, loaded.Ok?;
    if added { assert Objects(j) == [] || AcceptedObject(Objects(j)[0]); }
    assert AllLoad(stored + [j]) <==> Loads(j);
  }

  lemma MatchesAll()
    ensures AcceptedObject([]) && Kept([[]]) == [[]] && !BoundedInTime([])
  {
    var objects: seq<seq<Field>> := [[]];
    assert objects[..0] == [] && Kept(objects) == [[]];
  }

  /** For instance, the array of a single filter that matches everything is added and
      cannot be loaded. */
  method ArrayBreaksWrites(maxFilterLimit: nat) returns (added: bool, loads: bool)
    ensures added && !loads
  {
    var j := Many([[]]);
    MatchesAll();
    assert !AllLoad([j]) by { assert j in [j]; }
    var checked := CheckFilter(j, maxFilterLimit);
    var loaded := LoadFilters([j]);
    added, loads := checked.Ok?, loaded.Ok?;
  }
}
