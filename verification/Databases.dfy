/** The database tables that writing and deleting events touch: events, payloads
    and negentropy trees (src/events_write.cpp, src/events.h,
    src/NegentropyFilterCache.h). */
module Databases {
  import opened ByteStrings
  import opened Results
  import opened Events
  import opened Sequences
  import opened Filters
  import opened Store
  import Queries

  /** The compiled form of the filter `{}`. */
  const EVERYTHING := EMPTY.(indexOnlyScans := true)

  /** An element of a negentropy tree. */
  datatype TreeKey = TreeKey(created: nat, id: Bytes)

  type Tree = set<TreeKey>

  function KeyOf(e: Event): (k: TreeKey) {
    TreeKey(e.createdAt, e.id)
  }

  /** Everything in the tree stands for a stored event that its filter matches. */
  ghost predicate TreeSound(tree: Tree, f: Filter, events: Table) {
    forall k :: k in tree ==> exists l :: l in events && KeyOf(events[l]) == k && Matches(f, events[l])
  }

  /** Every stored event that its filter matches is in the tree. */
  ghost predicate TreeFull(tree: Tree, f: Filter, events: Table) {
    forall l :: l in events && Matches(f, events[l]) ==> KeyOf(events[l]) in tree
  }

  /** The tree after one event has been inserted or erased. */
  function Touched(tree: Tree, f: Filter, e: Event, insert: bool): (r: Tree) {
    if !Matches(f, e) then tree
    else if insert then tree + {KeyOf(e)}
    else tree - {KeyOf(e)}
  }

  lemma TouchInsert(tree: Tree, f: Filter, events: Table, e: Event, n: nat)
    requires n !in events
    ensures TreeSound(tree, f, events) ==> TreeSound(Touched(tree, f, e, true), f, events[n := e])
    ensures TreeFull(tree, f, events) ==> TreeFull(Touched(tree, f, e, true), f, events[n := e])
  {
    var events' := events[n := e];
    if TreeSound(tree, f, events) {
      forall k | k in Touched(tree, f, e, true) ensures exists l :: l in events' && KeyOf(events'[l]) == k && Matches(f, events'[l]) {
        if k in tree {
          var l :| l in events && KeyOf(events[l]) == k && Matches(f, events[l]);
          assert l in events' && events'[l] == events[l];
        } else {
          assert n in events' && events'[n] == e;
        }
      }
    }
  }

  lemma TouchErase(tree: Tree, f: Filter, events: Table, l: nat)
    requires UniqueIds(events) && l in events
    ensures TreeSound(tree, f, events) ==> TreeSound(Touched(tree, f, events[l], false), f, events - {l})
    ensures TreeFull(tree, f, events) ==> TreeFull(Touched(tree, f, events[l], false), f, events - {l})
  {
    var events' := events - {l};
    if TreeSound(tree, f, events) {
      forall k | k in Touched(tree, f, events[l], false) ensures exists m :: m in events' && KeyOf(events'[m]) == k && Matches(f, events'[m]) {
        var m :| m in events && KeyOf(events[m]) == k && Matches(f, events[m]);
        assert m != l;
        assert m in events' && events'[m] == events[m];
      }
    }
  }

  class Database {
    var events: Table
    var payloads: map<nat, Bytes>
    var negFilters: map<nat, Filter>
    var negentropyModificationCounter: nat
    var trees: map<nat, Tree>
    /** The trees that have been built. */
    ghost var built: set<nat>

    /** What holds even in the middle of a write. */
    ghost predicate Tables()
      reads this
    {
      var stored := events;
      && UniqueIds(stored)
      && payloads.Keys == stored.Keys
      && trees.Keys == negFilters.Keys && built <= trees.Keys
      && (forall t :: t in trees ==> TreeSound(trees[t], negFilters[t], stored))
      && (forall t :: t in trees && t in built ==> TreeFull(trees[t], negFilters[t], stored))
    }

    ghost predicate Valid()
      reads this
    {
      Tables() && StoreInv(events)
    }

    /** The filters in the table went through the filter constructor. */
    ghost predicate FiltersOk()
      reads `negFilters
    {
      forall t :: t in negFilters ==> Queries.Runnable(negFilters[t])
    }

    /** An empty database. Its first tree has the filter that matches everything. */
    constructor ()
      ensures Valid() && FiltersOk() && events == map[] && negFilters == map[1 := EVERYTHING] && built == {1}
      ensures negentropyModificationCounter == 1
    {
      events := map[];
      payloads := map[];
      negFilters := map[1 := EVERYTHING];
      negentropyModificationCounter := 1;
      trees := map[1 := {}];
      built := {1};
    }

    /** lookupEventById. */
    method LookupById(id: Bytes) returns (r: Option<nat>)
      ensures r.Some? <==> HasId(events, id)
      ensures r.Some? ==> r.value in events && events[r.value].id == id
    {
      if l :| l in events && events[l].id == id { r := Some(l); } else { r := None; }
    }

    /** getMostRecentLevId. */
    method MostRecentLevId() returns (m: nat)
      ensures m == MaxLevId(events)
    {
      m := 0;
      var left := events.Keys;
      while left != {}
        invariant left <= events.Keys
        invariant forall l :: l in events && l !in left ==> l <= m
        invariant m == 0 || m in events
        decreases |left|
      {
        var l :| l in left;
        if l > m { m := l; }
        left := left - {l};
      }
      if m in events { MaxLevIdIs(events, m); } else { assert events == map[]; }
    }
  }

  // ---------------------------------------------------------------------------
  // The negentropy filter cache

  datatype FilterInfo = FilterInfo(f: Filter, treeId: nat)

  /** `filters` lists the filter table, each tree once. */
  ghost predicate ListsTable(filters: seq<FilterInfo>, table: map<nat, Filter>) {
    && (forall i :: 0 <= i < |filters| ==> filters[i].treeId in table && table[filters[i].treeId] == filters[i].f)
    && (forall i, j :: 0 <= i < j < |filters| ==> filters[i].treeId != filters[j].treeId)
    && (forall t :: t in table ==> exists i :: 0 <= i < |filters| && filters[i].treeId == t)
  }

  function ByKind(m: map<nat, seq<nat>>, kind: nat): (s: seq<nat>) {
    if kind in m then m[kind] else []
  }

  /** `list` names the filters among the first `n` that a kind is dispatched to. */
  ghost predicate ListsKind(filters: seq<FilterInfo>, n: nat, kind: nat, list: seq<nat>)
    requires n <= |filters|
  {
    && NoRepeats(list)
    && forall i :: i in list <==> 0 <= i < n && filters[i].f.kinds.Some? && kind in filters[i].f.kinds.value
  }

  ghost predicate ListsKindless(filters: seq<FilterInfo>, n: nat, list: seq<nat>)
    requires n <= |filters|
  {
    && NoRepeats(list)
    && forall i :: i in list <==> 0 <= i < n && filters[i].f.kinds.None?
  }

  /** The dispatch index over the first `n` filters: by kind, or without one. */
  ghost predicate Dispatches(filters: seq<FilterInfo>, n: nat, byKind: map<nat, seq<nat>>, noKind: seq<nat>)
    requires n <= |filters|
  {
    && ListsKindless(filters, n, noKind)
    && forall kind :: ListsKind(filters, n, kind, ByKind(byKind, kind))
  }

  class NegentropyFilterCache {
    var filters: seq<FilterInfo>
    var modificationCounter: nat
    var kindToFilterIdx: map<nat, seq<nat>>
    var noKindFilterIdxs: seq<nat>

    /** The cache shows the filter table as it is. */
    ghost predicate UpToDate(table: map<nat, Filter>)
      reads this
    {
      ListsTable(filters, table) && Dispatches(filters, |filters|, kindToFilterIdx, noKindFilterIdxs)
    }

    /** A cache whose counter equals the database's is up to date. */
    ghost predicate Consistent(table: map<nat, Filter>, counter: nat)
      reads this
    {
      modificationCounter <= counter && (modificationCounter == counter ==> UpToDate(table))
    }

    constructor ()
      ensures forall table, counter: nat :: counter >= 1 ==> Consistent(table, counter)
    {
      filters := [];
      modificationCounter := 0;
      kindToFilterIdx := map[];
      noKindFilterIdxs := [];
    }

    /** freshenCache: reread the filter table if the counter has moved. */
    method Freshen(db: Database)
      requires Consistent(db.negFilters, db.negentropyModificationCounter)
      requires db.FiltersOk()
      modifies this
      ensures UpToDate(db.negFilters) && Consistent(db.negFilters, db.negentropyModificationCounter)
    {
      if db.negentropyModificationCounter != modificationCounter {
        filters := ReadTable(db.negFilters);
        kindToFilterIdx, noKindFilterIdxs := BuildDispatch(filters);
        modificationCounter := db.negentropyModificationCounter;
      }
    }

    /** The update callback of ctx: the filters dispatched by the event's kind, then
        those without kinds. Every tree whose filter matches is updated, once. */
    method Update(db: Database, e: Event, insert: bool) returns (touched: seq<nat>)
      requires UpToDate(db.negFilters) && db.trees.Keys == db.negFilters.Keys
      modifies db`trees
      ensures db.trees.Keys == old(db.trees.Keys)
      ensures forall t :: t in db.trees ==> db.trees[t] == Touched(old(db.trees)[t], db.negFilters[t], e, insert)
      ensures NoRepeats(touched) && forall t :: t in touched <==> t in db.negFilters && Matches(db.negFilters[t], e)
    {
      var candidates := ByKind(kindToFilterIdx, e.kind) + noKindFilterIdxs;
      CandidatesSuffice(filters, kindToFilterIdx, noKindFilterIdxs, e);
      var trees;
      trees, touched := TryFilters(db.trees, filters, candidates, e, insert);
      AllTreesTouched(db.trees, trees, filters, db.negFilters, e, insert, touched);
      db.trees := trees;
    }
  }

  /** tryFilter for each candidate in turn. */
  method TryFilters(trees: map<nat, Tree>, filters: seq<FilterInfo>, candidates: seq<nat>, e: Event, insert: bool)
      returns (trees': map<nat, Tree>, touched: seq<nat>)
    requires forall i :: 0 <= i < |filters| ==> filters[i].treeId in trees
    requires forall i, j :: 0 <= i < j < |filters| ==> filters[i].treeId != filters[j].treeId
    requires NoRepeats(candidates) && forall i :: i in candidates ==> 0 <= i < |filters|
    requires forall i :: 0 <= i < |filters| && Matches(filters[i].f, e) ==> i in candidates
    ensures trees'.Keys == trees.Keys
    ensures forall i :: 0 <= i < |filters| ==> trees'[filters[i].treeId] == Touched(trees[filters[i].treeId], filters[i].f, e, insert)
    ensures NoRepeats(touched) && forall t :: t in touched ==> t in trees
    ensures forall i :: 0 <= i < |filters| ==> (filters[i].treeId in touched <==> Matches(filters[i].f, e))
  {
    trees', touched := trees, [];
    for k := 0 to |candidates|
      invariant trees'.Keys == trees.Keys
      invariant NoRepeats(touched) && forall t :: t in touched ==> t in trees
      invariant forall i :: 0 <= i < |filters| ==> Tried(trees, trees', filters[i], i in candidates[..k], e, insert, touched)
    {
      var i := candidates[k];
      assert i in candidates && i !in candidates[..k];
      assert candidates[..k + 1] == candidates[..k] + [i];
      assert Tried(trees, trees', filters[i], false, e, insert, touched);
      ghost var before, touchedBefore := trees', touched;
      if Matches(filters[i].f, e) {
        var t := filters[i].treeId;
        trees' := trees'[t := if insert then trees'[t] + {KeyOf(e)} else trees'[t] - {KeyOf(e)}];
        touched := touched + [t];
      }
      forall j | 0 <= j < |filters| ensures Tried(trees, trees', filters[j], j in candidates[..k + 1], e, insert, touched) {
        TriedNext(trees, before, trees', filters, i, j, j in candidates[..k], e, insert, touchedBefore, touched);
      }
    }
    assert candidates[..|candidates|] == candidates;
    assert forall i :: 0 <= i < |filters| ==> Tried(trees, trees', filters[i], i in candidates, e, insert, touched);
  }

  /** Candidate `i` has had its turn; filter `j` is as it should be. */
  lemma TriedNext(trees: map<nat, Tree>, before: map<nat, Tree>, after: map<nat, Tree>, filters: seq<FilterInfo>, i: nat, j: nat,
                  done: bool, e: Event, insert: bool, touched: seq<nat>, touched': seq<nat>)
    requires i < |filters| && j < |filters| && Tried(trees, before, filters[j], done, e, insert, touched)
    requires i != j ==> filters[i].treeId != filters[j].treeId
    requires Tried(trees, before, filters[i], false, e, insert, touched)
    requires
      var t := filters[i].treeId;
      if Matches(filters[i].f, e)
      then after == before[t := if insert then before[t] + {KeyOf(e)} else before[t] - {KeyOf(e)}] && touched' == touched + [t]
      else after == before && touched' == touched
    ensures Tried(trees, after, filters[j], done || i == j, e, insert, touched')
  {
  }

  /** A filter's tree is updated once its turn has come, if the filter matches. */
  ghost predicate Tried(trees: map<nat, Tree>, trees': map<nat, Tree>, info: FilterInfo, done: bool, e: Event, insert: bool, touched: seq<nat>) {
    && info.treeId in trees && info.treeId in trees'
    && trees'[info.treeId] == (if done then Touched(trees[info.treeId], info.f, e, insert) else trees[info.treeId])
    && (info.treeId in touched <==> done && Matches(info.f, e))
  }

  lemma AllTreesTouched(trees: map<nat, Tree>, trees': map<nat, Tree>, filters: seq<FilterInfo>, table: map<nat, Filter>, e: Event, insert: bool, touched: seq<nat>)
    requires ListsTable(filters, table) && trees.Keys == table.Keys == trees'.Keys
    requires forall i :: 0 <= i < |filters| ==> trees'[filters[i].treeId] == Touched(trees[filters[i].treeId], filters[i].f, e, insert)
    requires forall t :: t in touched ==> t in trees
    requires forall i :: 0 <= i < |filters| ==> (filters[i].treeId in touched <==> Matches(filters[i].f, e))
    ensures forall t :: t in table ==> trees'[t] == Touched(trees[t], table[t], e, insert)
    ensures forall t :: t in touched <==> t in table && Matches(table[t], e)
  {
    forall t | t in table
      ensures trees'[t] == Touched(trees[t], table[t], e, insert) && (t in touched <==> Matches(table[t], e))
    {
      var i :| 0 <= i < |filters| && filters[i].treeId == t;
    }
  }

  /** The dispatched filters include every one that matches, each once. */
  lemma CandidatesSuffice(filters: seq<FilterInfo>, byKind: map<nat, seq<nat>>, noKind: seq<nat>, e: Event)
    requires Dispatches(filters, |filters|, byKind, noKind)
    ensures
      var c := ByKind(byKind, e.kind) + noKind;
      && NoRepeats(c)
      && (forall i :: i in c ==> 0 <= i < |filters|)
      && forall i :: 0 <= i < |filters| && Matches(filters[i].f, e) ==> i in c
  {
    var a := ByKind(byKind, e.kind);
    var c := a + noKind;
    assert ListsKind(filters, |filters|, e.kind, a);
    forall i, j | 0 <= i < j < |c| ensures c[i] != c[j] {
      if i < |a| <= j { assert c[i] in a && c[j] in noKind; }
    }
    forall i | i in c ensures 0 <= i < |filters| {
      assert i in a || i in noKind;
    }
  }

  method ReadTable(table: map<nat, Filter>) returns (filters: seq<FilterInfo>)
    ensures ListsTable(filters, table)
  {
    filters := [];
    var left := table.Keys;
    while left != {}
      invariant left <= table.Keys
      invariant forall i :: 0 <= i < |filters| ==>
        filters[i].treeId in table && filters[i].treeId !in left && table[filters[i].treeId] == filters[i].f
      invariant forall i, j :: 0 <= i < j < |filters| ==> filters[i].treeId != filters[j].treeId
      invariant forall t :: t in table && t !in left ==> exists i :: 0 <= i < |filters| && filters[i].treeId == t
      decreases |left|
    {
      var t :| t in left;
      ghost var before := filters;
      filters := filters + [FilterInfo(table[t], t)];
      left := left - {t};
      forall u | u in table && u !in left ensures exists i :: 0 <= i < |filters| && filters[i].treeId == u {
        if u == t { assert filters[|before|].treeId == u; }
        else { var i :| 0 <= i < |before| && before[i].treeId == u; assert filters[i].treeId == u; }
      }
    }
  }

  /** Enters filter `i` under each of its kinds. */
  method AddKinds(byKind: map<nat, seq<nat>>, kinds: seq<nat>, i: nat) returns (r: map<nat, seq<nat>>)
    requires Increasing(kinds)
    ensures forall kind :: ByKind(r, kind) == if kind in kinds then ByKind(byKind, kind) + [i] else ByKind(byKind, kind)
  {
    r := byKind;
    for j := 0 to |kinds|
      invariant forall kind :: ByKind(r, kind) == if kind in kinds[..j] then ByKind(byKind, kind) + [i] else ByKind(byKind, kind)
    {
      assert kinds[..j + 1] == kinds[..j] + [kinds[j]];
      r := r[kinds[j] := ByKind(r, kinds[j]) + [i]];
    }
    assert kinds[..|kinds|] == kinds;
  }

  lemma DispatchKinds(filters: seq<FilterInfo>, i: nat, byKind: map<nat, seq<nat>>, byKind': map<nat, seq<nat>>, noKind: seq<nat>)
    requires i < |filters| && filters[i].f.kinds.Some? && Dispatches(filters, i, byKind, noKind)
    requires forall kind ::
      ByKind(byKind', kind) == if kind in filters[i].f.kinds.value then ByKind(byKind, kind) + [i] else ByKind(byKind, kind)
    ensures Dispatches(filters, i + 1, byKind', noKind)
  {
    forall kind ensures ListsKind(filters, i + 1, kind, ByKind(byKind', kind)) {
      assert ListsKind(filters, i, kind, ByKind(byKind, kind));
    }
  }

  method BuildDispatch(filters: seq<FilterInfo>) returns (byKind: map<nat, seq<nat>>, noKind: seq<nat>)
    requires forall i :: 0 <= i < |filters| && filters[i].f.kinds.Some? ==> Increasing(filters[i].f.kinds.value)
    ensures Dispatches(filters, |filters|, byKind, noKind)
  {
    byKind, noKind := map[], [];
    for i := 0 to |filters|
      invariant Dispatches(filters, i, byKind, noKind)
    {
      if filters[i].f.kinds.Some? {
        ghost var before := byKind;
        byKind := AddKinds(byKind, filters[i].f.kinds.value, i);
        DispatchKinds(filters, i, before, byKind, noKind);
      } else {
        DispatchKindless(filters, i, byKind, noKind);
        noKind := noKind + [i];
      }
    }
  }

  lemma DispatchKindless(filters: seq<FilterInfo>, i: nat, byKind: map<nat, seq<nat>>, noKind: seq<nat>)
    requires i < |filters| && filters[i].f.kinds.None? && Dispatches(filters, i, byKind, noKind)
    ensures Dispatches(filters, i + 1, byKind, noKind + [i])
  {
    forall kind ensures ListsKind(filters, i + 1, kind, ByKind(byKind, kind)) {
      assert ListsKind(filters, i, kind, ByKind(byKind, kind));
    }
  }
}
