/** The Event indices (golpe.yaml) and the choice of index for a filter
    (the DBScan constructor, src/DBQuery.h). */
module Plans {
  import opened ByteStrings
  import opened Events
  import opened Sequences
  import opened Filters
  import FilterSets

  datatype Index = ById | ByTag | ByPubkeyKind | ByPubkey | ByKind | ByCreatedAt

  /** The part of an index key in front of the timestamp: a string, a number, or
      both; the unused part is empty. */
  datatype Major = Major(text: Bytes, number: nat)

  /** One index row: its key is (major, created) and its value is the levId. */
  datatype Row = Row(major: Major, created: nat, levId: nat)

  predicate MajorLess(a: Major, b: Major) {
    Less(a.text, b.text) || (a.text == b.text && a.number < b.number)
  }

  /** Index order: key first, then levId. */
  predicate RowLess(a: Row, b: Row) {
    || MajorLess(a.major, b.major)
    || (a.major == b.major && (a.created < b.created || (a.created == b.created && a.levId < b.levId)))
  }

  predicate RowLeq(a: Row, b: Row) {
    a == b || RowLess(a, b)
  }

  lemma MajorLessTransitive(a: Major, b: Major, c: Major)
    requires MajorLess(a, b) && MajorLess(b, c)
    ensures MajorLess(a, c)
  {
    if Less(a.text, b.text) && Less(b.text, c.text) { LessTransitive(a.text, b.text, c.text); }
  }

  lemma MajorLessAsymmetric(a: Major, b: Major)
    requires MajorLess(a, b)
    ensures !MajorLess(b, a) && a != b
  {
    LessIrreflexive(a.text);
    if Less(a.text, b.text) { LessAsymmetric(a.text, b.text); }
  }

  lemma RowLessTransitive(a: Row, b: Row, c: Row)
    requires RowLess(a, b) && RowLess(b, c)
    ensures RowLess(a, c)
  {
    if MajorLess(a.major, b.major) && MajorLess(b.major, c.major) {
      MajorLessTransitive(a.major, b.major, c.major);
    }
  }

  lemma RowLessAsymmetric(a: Row, b: Row)
    requires RowLess(a, b)
    ensures !RowLess(b, a) && a != b
  {
    LessIrreflexive(a.major.text);
    if MajorLess(a.major, b.major) { MajorLessAsymmetric(a.major, b.major); }
  }

  lemma RowLessTotal(a: Row, b: Row)
    ensures RowLess(a, b) || a == b || RowLess(b, a)
  {
    LessTotal(a.major.text, b.major.text);
  }

  /** The rows that indexPrelude gives an event, without their timestamp. */
  predicate HasMajor(ix: Index, e: Event, m: Major) {
    match ix
    case ById => m == Major(e.id, 0)
    case ByTag => m.number == 0 && exists t :: t in e.tags && m.text == [t.name] + t.value
    case ByPubkeyKind => m == Major(e.pubkey, e.kind)
    case ByPubkey => m == Major(e.pubkey, 0)
    case ByKind => m == Major([], e.kind)
    case ByCreatedAt => m == Major([], 0)
  }

  predicate IsRow(ix: Index, db: Table, r: Row) {
    && r.levId in db
    && r.created == db[r.levId].createdAt
    && HasMajor(ix, db[r.levId], r.major)
  }

  predicate SortedRows(rows: seq<Row>) {
    forall i, j :: 0 <= i < j < |rows| ==> RowLess(rows[i], rows[j])
  }

  /** `rows` is the whole index `ix` of the table, in index order. */
  ghost predicate IsIndex(rows: seq<Row>, ix: Index, db: Table) {
    SortedRows(rows) && forall r :: r in rows <==> IsRow(ix, db, r)
  }

  /** An index scan: which index, one search key per cursor, and whether a row is
      enough to know that the event matches. */
  datatype Plan = Plan(index: Index, searches: seq<Major>, indexOnly: bool)

  /** Every event the filter matches has a row under one of the search keys. */
  ghost predicate Complete(p: Plan, f: Filter) {
    forall e :: Matches(f, e) ==> exists j :: 0 <= j < |p.searches| && HasMajor(p.index, e, p.searches[j])
  }

  /** In an index-only plan, a row in the time range belongs to a matching event. */
  ghost predicate Sound(p: Plan, f: Filter) {
    p.indexOnly ==>
      forall e, j :: 0 <= j < |p.searches| && HasMajor(p.index, e, p.searches[j]) && MatchesTimes(f, e.createdAt) ==> Matches(f, e)
  }

  function PreferredIndex(f: Filter): (ix: Index) {
    if f.ids.Some? then ById
    else if f.tags != [] then ByTag
    else if f.authors.Some? && f.kinds.Some? && |f.authors.value| * |f.kinds.value| < 1_000 then ByPubkeyKind
    else if f.authors.Some? then ByPubkey
    else if f.kinds.Some? then ByKind
    else ByCreatedAt
  }

  /** The tag item with the fewest values, the first one among equals. */
  method SmallestTag(tags: seq<TagFilter>) returns (k: nat)
    requires tags != []
    ensures k < |tags|
    ensures forall i :: 0 <= i < |tags| ==> |tags[k].values| <= |tags[i].values|
    ensures forall i :: 0 <= i < k ==> |tags[k].values| < |tags[i].values|
  {
    k := 0;
    for i := 1 to |tags|
      invariant k < i
      invariant forall m :: 0 <= m < i ==> |tags[k].values| <= |tags[m].values|
      invariant forall m :: 0 <= m < k ==> |tags[k].values| < |tags[m].values|
    {
      if |tags[i].values| < |tags[k].values| { k := i; }
    }
  }

  predicate Distinct(s: seq<Major>) {
    forall i, j :: 0 <= i < j < |s| ==> s[i] != s[j]
  }

  /** One search key per string of a filter set, behind a fixed prefix. */
  method StringSearches(prefix: Bytes, strings: seq<Bytes>) returns (r: seq<Major>)
    requires FilterSets.StrictlyIncreasing(strings)
    ensures |r| == |strings| && Distinct(r)
    ensures forall i :: 0 <= i < |r| ==> r[i] == Major(prefix + strings[i], 0)
  {
    r := [];
    for i := 0 to |strings|
      invariant |r| == i
      invariant forall k :: 0 <= k < i ==> r[k] == Major(prefix + strings[k], 0)
    {
      r := r + [Major(prefix + strings[i], 0)];
    }
    forall i, j | 0 <= i < j < |r| ensures r[i] != r[j] {
      LessIrreflexive(strings[i]);
      assert (prefix + strings[i])[|prefix|..] == strings[i] && (prefix + strings[j])[|prefix|..] == strings[j];
    }
  }

  method PubkeyKindSearches(authors: seq<Bytes>, kinds: seq<nat>) returns (r: seq<Major>)
    requires FilterSets.StrictlyIncreasing(authors) && Increasing(kinds)
    ensures |r| == |authors| * |kinds| && Distinct(r)
    ensures forall m :: m in r <==> m.text in authors && m.number in kinds
  {
    r := [];
    for i := 0 to |authors|
      invariant |r| == i * |kinds| && Distinct(r)
      invariant forall m :: m in r <==> m.text in authors[..i] && m.number in kinds
    {
      ghost var before := r;
      assert authors[i] !in authors[..i] by { LessIrreflexive(authors[i]); }
      for j := 0 to |kinds|
        invariant |r| == |before| + j && Distinct(r)
        invariant forall m :: m in r <==> m in before || (m.text == authors[i] && m.number in kinds[..j])
      {
        var next := Major(authors[i], kinds[j]);
        assert next !in r;
        assert kinds[..j + 1] == kinds[..j] + [kinds[j]];
        r := r + [next];
      }
      assert kinds[..|kinds|] == kinds;
      assert authors[..i + 1] == authors[..i] + [authors[i]];
    }
    assert authors[..|authors|] == authors;
  }

  method KindSearches(kinds: seq<nat>) returns (r: seq<Major>)
    requires Increasing(kinds)
    ensures |r| == |kinds| && Distinct(r)
    ensures forall i :: 0 <= i < |r| ==> r[i] == Major([], kinds[i])
  {
    r := [];
    for i := 0 to |kinds|
      invariant |r| == i
      invariant forall k :: 0 <= k < i ==> r[k] == Major([], kinds[k])
    {
      r := r + [Major([], kinds[i])];
    }
  }

  /** No filter set has more than `n` items. */
  predicate AtMostItems(f: Filter, n: nat) {
    && (f.ids.Some? ==> |f.ids.value| <= n)
    && (f.authors.Some? ==> |f.authors.value| <= n)
    && (f.kinds.Some? ==> |f.kinds.value| <= n)
    && forall i :: 0 <= i < |f.tags| ==> |f.tags[i].values| <= n
  }

  /** The plan choice of the DBScan constructor. */
  method ChoosePlan(f: Filter) returns (p: Plan)
    requires WellFormed(f) && !f.neverMatch
    ensures p.index == PreferredIndex(f)
    ensures p.searches != [] && Distinct(p.searches)
    ensures forall n :: n >= 1_000 && AtMostItems(f, n) ==> |p.searches| <= n
    ensures Complete(p, f) && Sound(p, f)
  {
    var indexOnly := f.indexOnlyScans;
    if f.ids.Some? {
      var s := StringSearches([], f.ids.value);
      p := Plan(ById, s, indexOnly);
      IdPlan(f, p);
    } else if f.tags != [] {
      var k := SmallestTag(f.tags);
      var s := StringSearches([f.tags[k].name], f.tags[k].values);
      p := Plan(ByTag, s, indexOnly);
      TagPlan(f, p, k);
    } else if f.authors.Some? && f.kinds.Some? && |f.authors.value| * |f.kinds.value| < 1_000 {
      var s := PubkeyKindSearches(f.authors.value, f.kinds.value);
      assert Major(f.authors.value[0], f.kinds.value[0]) in s;
      p := Plan(ByPubkeyKind, s, indexOnly);
      PubkeyKindPlan(f, p);
    } else if f.authors.Some? {
      if f.kinds.Some? { indexOnly := false; }
      var s := StringSearches([], f.authors.value);
      p := Plan(ByPubkey, s, indexOnly);
      PubkeyPlan(f, p);
    } else if f.kinds.Some? {
      var s := KindSearches(f.kinds.value);
      p := Plan(ByKind, s, indexOnly);
      KindPlan(f, p);
    } else {
      p := Plan(ByCreatedAt, [Major([], 0)], indexOnly);
      assert HasMajor(ByCreatedAt, Event([], [], 0, 0, 0, []), p.searches[0]);
      assert forall e :: HasMajor(ByCreatedAt, e, p.searches[0]);
    }
  }

  lemma IdPlan(f: Filter, p: Plan)
    requires WellFormed(f) && !f.neverMatch && f.ids.Some?
    requires p.index == ById && |p.searches| == |f.ids.value| && p.indexOnly == f.indexOnlyScans
    requires forall i :: 0 <= i < |p.searches| ==> p.searches[i] == Major([] + f.ids.value[i], 0)
    ensures Complete(p, f) && Sound(p, f)
  {
    forall e | Matches(f, e) ensures exists j :: 0 <= j < |p.searches| && HasMajor(p.index, e, p.searches[j]) {
      var j :| 0 <= j < |f.ids.value| && f.ids.value[j] == e.id;
      assert [] + e.id == e.id;
      assert HasMajor(p.index, e, p.searches[j]);
    }
    assert forall j :: 0 <= j < |p.searches| ==> [] + f.ids.value[j] == f.ids.value[j];
  }

  lemma TagPlan(f: Filter, p: Plan, k: nat)
    requires WellFormed(f) && !f.neverMatch && f.ids.None? && k < |f.tags|
    requires p.index == ByTag && |p.searches| == |f.tags[k].values| && p.indexOnly == f.indexOnlyScans
    requires forall i :: 0 <= i < |p.searches| ==> p.searches[i] == Major([f.tags[k].name] + f.tags[k].values[i], 0)
    ensures Complete(p, f) && Sound(p, f)
  {
    var tf := f.tags[k];
    forall e | Matches(f, e) ensures exists j :: 0 <= j < |p.searches| && HasMajor(p.index, e, p.searches[j]) {
      assert HasTag(e, tf);
      var t :| t in e.tags && t.name == tf.name && t.value in tf.values;
      var j :| 0 <= j < |tf.values| && tf.values[j] == t.value;
      assert HasMajor(p.index, e, p.searches[j]);
    }
    if p.indexOnly {
      forall e, j | 0 <= j < |p.searches| && HasMajor(p.index, e, p.searches[j]) && MatchesTimes(f, e.createdAt)
        ensures Matches(f, e)
      {
        var t :| t in e.tags && p.searches[j].text == [t.name] + t.value;
        assert p.searches[j].text[0] == tf.name && p.searches[j].text[1..] == tf.values[j];
        assert t.name == tf.name && t.value == tf.values[j];
        assert HasTag(e, tf);
        assert f.tags == [tf];
      }
    }
  }

  lemma PubkeyKindPlan(f: Filter, p: Plan)
    requires WellFormed(f) && !f.neverMatch && f.ids.None? && f.tags == [] && f.authors.Some? && f.kinds.Some?
    requires p.index == ByPubkeyKind
    requires forall m :: m in p.searches <==> m.text in f.authors.value && m.number in f.kinds.value
    ensures Complete(p, f) && Sound(p, f)
  {
    forall e | Matches(f, e) ensures exists j :: 0 <= j < |p.searches| && HasMajor(p.index, e, p.searches[j]) {
      var m := Major(e.pubkey, e.kind);
      assert m in p.searches;
      var j :| 0 <= j < |p.searches| && p.searches[j] == m;
      assert HasMajor(p.index, e, p.searches[j]);
    }
    assert forall j :: 0 <= j < |p.searches| ==> p.searches[j] in p.searches;
  }

  lemma PubkeyPlan(f: Filter, p: Plan)
    requires WellFormed(f) && !f.neverMatch && f.ids.None? && f.tags == [] && f.authors.Some?
    requires p.index == ByPubkey && |p.searches| == |f.authors.value| && (p.indexOnly ==> f.kinds.None?)
    requires forall i :: 0 <= i < |p.searches| ==> p.searches[i] == Major([] + f.authors.value[i], 0)
    ensures Complete(p, f) && Sound(p, f)
  {
    forall e | Matches(f, e) ensures exists j :: 0 <= j < |p.searches| && HasMajor(p.index, e, p.searches[j]) {
      var j :| 0 <= j < |f.authors.value| && f.authors.value[j] == e.pubkey;
      assert [] + e.pubkey == e.pubkey;
      assert HasMajor(p.index, e, p.searches[j]);
    }
    assert forall j :: 0 <= j < |p.searches| ==> [] + f.authors.value[j] == f.authors.value[j];
  }

  lemma KindPlan(f: Filter, p: Plan)
    requires WellFormed(f) && !f.neverMatch && f.ids.None? && f.tags == [] && f.authors.None? && f.kinds.Some?
    requires p.index == ByKind && |p.searches| == |f.kinds.value|
    requires forall i :: 0 <= i < |p.searches| ==> p.searches[i] == Major([], f.kinds.value[i])
    ensures Complete(p, f) && Sound(p, f)
  {
    forall e | Matches(f, e) ensures exists j :: 0 <= j < |p.searches| && HasMajor(p.index, e, p.searches[j]) {
      var j :| 0 <= j < |f.kinds.value| && f.kinds.value[j] == e.kind;
      assert HasMajor(p.index, e, p.searches[j]);
    }
  }
}
