/** Compiled filters (NostrFilter and NostrFilterGroup, src/filters.h). */
module Filters {
  import opened ByteStrings
  import opened Results
  import opened Events
  import opened Sequences
  import opened Texts
  import FilterSets

  /** The values one tag item asks for. */
  datatype TagFilter = TagFilter(name: Byte, values: seq<Bytes>)

  /** A compiled filter. Every list is the content of a filter set; `tags` lists
      the tag items in the iteration order of the hash map that holds them. */
  datatype Filter = Filter(
    ids: Option<seq<Bytes>>,
    authors: Option<seq<Bytes>>,
    kinds: Option<seq<nat>>,
    tags: seq<TagFilter>,
    since: nat,
    until: nat,
    limit: nat,
    neverMatch: bool,
    indexOnlyScans: bool)

  const EMPTY := Filter(None, None, None, [], 0, MAX_U64, MAX_U64, false, false)

  predicate MatchesTimes(f: Filter, created: nat) {
    f.since <= created <= f.until
  }

  predicate HasTag(e: Event, tf: TagFilter) {
    exists t :: t in e.tags && t.name == tf.name && t.value in tf.values
  }

  /** What a filter asks of an event. */
  predicate Matches(f: Filter, e: Event) {
    && !f.neverMatch
    && MatchesTimes(f, e.createdAt)
    && (f.ids.Some? ==> e.id in f.ids.value)
    && (f.authors.Some? ==> e.pubkey in f.authors.value)
    && (f.kinds.Some? ==> e.kind in f.kinds.value)
    && forall tf :: tf in f.tags ==> HasTag(e, tf)
  }

  predicate GroupMatches(filters: seq<Filter>, e: Event) {
    exists i :: 0 <= i < |filters| && Matches(filters[i], e)
  }

  /** How many of the fields that name an index a filter uses. */
  function MajorFields(f: Filter): (n: nat)
    ensures n == 0 ==> f.ids.None? && f.authors.None? && f.kinds.None? && f.tags == []
  {
    (if f.ids.Some? then 1 else 0) + (if f.authors.Some? then 1 else 0) +
    (if f.kinds.Some? then 1 else 0) + |f.tags|
  }

  predicate SetsWellFormed(f: Filter) {
    && (f.ids.Some? ==> f.ids.value != [] && FilterSets.StrictlyIncreasing(f.ids.value))
    && (f.authors.Some? ==> f.authors.value != [] && FilterSets.StrictlyIncreasing(f.authors.value))
    && (f.kinds.Some? ==> f.kinds.value != [] && Increasing(f.kinds.value))
    && (forall i :: 0 <= i < |f.tags| ==> f.tags[i].values != [] && FilterSets.StrictlyIncreasing(f.tags[i].values))
    && (forall i, j :: 0 <= i < j < |f.tags| ==> f.tags[i].name != f.tags[j].name)
  }

  /** A filter whose rows in its index need no further look at the event. */
  predicate OneIndexSuffices(f: Filter) {
    MajorFields(f) <= 1 || (MajorFields(f) == 2 && f.authors.Some? && f.kinds.Some?)
  }

  /** What the constructor establishes and every user of a filter relies on. */
  predicate WellFormed(f: Filter) {
    && SetsWellFormed(f)
    && |f.tags| <= 3
    && (f.indexOnlyScans <==> OneIndexSuffices(f))
  }

  // ---------------------------------------------------------------------------
  // The constructor

  /** One member of the JSON object a filter is compiled from. `Other` is a key the
      constructor does not know or a value of the wrong JSON type; it may be the
      empty array. */
  datatype Field =
    | Ids(strings: seq<Bytes>)
    | Authors(strings: seq<Bytes>)
    | Kinds(numbers: seq<nat>)
    | TagItem(key: Bytes, strings: seq<Bytes>)
    | Since(n: nat)
    | Until(n: nat)
    | Limit(n: nat)
    | Other(emptyArray: bool)

  /** The keys of a JSON object are distinct. */
  predicate SameKey(a: Field, b: Field) {
    match a
    case Ids(_) => b.Ids?
    case Authors(_) => b.Authors?
    case Kinds(_) => b.Kinds?
    case TagItem(k, _) => b.TagItem? && b.key == k
    case Since(_) => b.Since?
    case Until(_) => b.Until?
    case Limit(_) => b.Limit?
    case Other(_) => false
  }

  predicate DistinctKeys(fields: seq<Field>) {
    forall i, j :: 0 <= i < j < |fields| ==> !SameKey(fields[i], fields[j])
  }

  predicate EmptyArray(x: Field) {
    match x
    case Ids(s) => s == []
    case Authors(s) => s == []
    case Kinds(s) => s == []
    case TagItem(_, s) => s == []
    case Other(e) => e
    case _ => false
  }

  predicate AllHex(strings: seq<Bytes>) {
    forall i :: 0 <= i < |strings| ==> FromHex(strings[i]).Some?
  }

  /** The strings of a member after hex decoding, where it applies. */
  function Items(strings: seq<Bytes>, hexDecode: bool): (r: seq<Bytes>)
    ensures |r| == |strings|
  {
    if !hexDecode then strings
    else seq(|strings|, i requires 0 <= i < |strings| => if FromHex(strings[i]).Some? then FromHex(strings[i]).value else [])
  }

  /** What one member of the object demands of an event. */
  predicate Admits(x: Field, e: Event) {
    match x
    case Ids(s) => e.id in Items(s, true)
    case Authors(s) => e.pubkey in Items(s, true)
    case Kinds(s) => e.kind in s
    case TagItem(k, s) => s != [] && exists t :: t in e.tags && [t.name] == k && t.value in Items(s, FixedSizeTag(k))
    case Since(n) => n <= e.createdAt
    case Until(n) => e.createdAt <= n
    case Limit(_) => true
    case Other(_) => false
  }

  predicate FixedSizeTag(key: Bytes) {
    key == [TAG_P] || key == [TAG_E]
  }

  predicate SetFits(strings: seq<Bytes>, minSize: nat, maxSize: nat) {
    FilterSets.SizesAllowed(strings, minSize, maxSize) && |FilterSets.Concat(FilterSets.SortedDistinct(strings))| <= 65535
  }

  predicate HexSetFits(strings: seq<Bytes>) {
    AllHex(strings) && SetFits(Items(strings, true), 32, 32)
  }

  /** The members that the constructor accepts: empty arrays of any kind, and the others
      if their values can be read. */
  predicate Accepted(x: Field) {
    match x
    case Ids(s) => s == [] || HexSetFits(s)
    case Authors(s) => s == [] || HexSetFits(s)
    case Kinds(s) => forall k :: k in s ==> k <= MAX_U64
    case TagItem(k, s) => s == [] || (|k| == 1 && (if k == ['e' as int] || k == ['p' as int] then HexSetFits(s) else SetFits(s, 0, 255)))
    case Since(n) => n <= MAX_U64
    case Until(n) => n <= MAX_U64
    case Limit(n) => n <= MAX_U64
    case Other(emptyArray) => emptyArray
  }

  predicate CountsAsTag(x: Field) {
    x.TagItem? && x.strings != []
  }

  function NumTags(fields: seq<Field>): (n: nat) {
    if fields == [] then 0
    else NumTags(fields[..|fields| - 1]) + (if CountsAsTag(fields[|fields| - 1]) then 1 else 0)
  }

  function LastLimit(fields: seq<Field>): (n: nat) {
    if fields == [] then MAX_U64
    else if fields[|fields| - 1].Limit? then fields[|fields| - 1].n
    else LastLimit(fields[..|fields| - 1])
  }

  /** Some member sets a bound in time other than the default. */
  predicate BoundedInTime(fields: seq<Field>) {
    exists x :: x in fields && BoundsTime(x)
  }

  predicate BoundsTime(x: Field) {
    (x.Since? && x.n != 0) || (x.Until? && x.n != MAX_U64)
  }

  /** The sorted, deduplicated kinds (FilterSetUint). */
  function InsertKind(k: nat, s: seq<nat>): (r: seq<nat>)
    requires Increasing(s)
    ensures Increasing(r) && r != []
    ensures forall x :: x in r <==> x == k || x in s
  {
    if s == [] then [k]
    else if k == s[0] then s
    else if k < s[0] then [k] + s
    else
      var t := InsertKind(k, s[1..]);
      assert forall j :: 0 <= j < |t| ==> t[j] in t;
      [s[0]] + t
  }

  function SortedKinds(s: seq<nat>): (r: seq<nat>)
    ensures Increasing(r) && (s != [] ==> r != [])
    ensures forall x :: x in r <==> x in s
  {
    if s == [] then [] else InsertKind(s[0], SortedKinds(s[1..]))
  }

  predicate Bounded(f: Filter) {
    f.since != 0 || f.until != MAX_U64
  }

  /** The field of the filter that `x` writes is still at its default. */
  predicate Unset(f: Filter, x: Field) {
    match x
    case Ids(_) => f.ids.None?
    case Authors(_) => f.authors.None?
    case Kinds(_) => f.kinds.None?
    case TagItem(k, _) => forall i :: 0 <= i < |f.tags| ==> [f.tags[i].name] != k
    case Since(_) => f.since == 0
    case Until(_) => f.until == MAX_U64
    case _ => true
  }

  /** The filter after one more non-empty member. */
  function Extend(f: Filter, x: Field): (r: Filter)
    requires Accepted(x) && !EmptyArray(x)
  {
    match x
    case Ids(s) => f.(ids := Some(FilterSets.SortedDistinct(Items(s, true))))
    case Authors(s) => f.(authors := Some(FilterSets.SortedDistinct(Items(s, true))))
    case Kinds(s) => f.(kinds := Some(SortedKinds(s)))
    case TagItem(k, s) => f.(tags := f.tags + [TagFilter(k[0], FilterSets.SortedDistinct(Items(s, FixedSizeTag(k))))])
    case Since(n) => f.(since := n)
    case Until(n) => f.(until := n)
    case Limit(n) => f.(limit := n)
  }

  /** Writing an unset field adds exactly the demand of that member. */
  lemma ExtendAdmits(f: Filter, x: Field, e: Event)
    requires Accepted(x) && !EmptyArray(x) && Unset(f, x) && e.createdAt <= MAX_U64
    ensures Matches(Extend(f, x), e) <==> Matches(f, e) && Admits(x, e)
  {
    if x.TagItem? {
      var tf := TagFilter(x.key[0], FilterSets.SortedDistinct(Items(x.strings, FixedSizeTag(x.key))));
      assert [tf.name] == x.key;
      assert HasTag(e, tf) <==> Admits(x, e);
      assert Extend(f, x).tags == f.tags + [tf];
      assert forall u :: u in f.tags + [tf] <==> u in f.tags || u == tf;
    }
  }

  ghost predicate AdmitsAll(fields: seq<Field>, e: Event) {
    forall i :: 0 <= i < |fields| && !EmptyArray(fields[i]) ==> Admits(fields[i], e)
  }

  /** The filter built from the first `n` members asks for exactly what they
      ask for, and the fields of the members still to come are unset. */
  ghost predicate CompiledTo(f: Filter, fields: seq<Field>, n: nat)
    requires n <= |fields|
  {
    && !f.neverMatch
    && SetsWellFormed(f) && f.until <= MAX_U64
    && (forall j :: n <= j < |fields| ==> Unset(f, fields[j]))
    && |f.tags| == NumTags(fields[..n])
    && f.limit == LastLimit(fields[..n])
    && (Bounded(f) <==> BoundedInTime(fields[..n]))
    && (forall e: Event :: e.createdAt <= MAX_U64 ==> (Matches(f, e) <==> AdmitsAll(fields[..n], e)))
  }

  lemma AdmitsAllStep(fields: seq<Field>, n: nat, e: Event)
    requires n < |fields|
    ensures AdmitsAll(fields[..n + 1], e) <==> AdmitsAll(fields[..n], e) && (EmptyArray(fields[n]) || Admits(fields[n], e))
  {
    assert fields[..n + 1][n] == fields[n];
    assert forall i :: 0 <= i < n ==> fields[..n][i] == fields[..n + 1][i];
  }

  lemma ExtendSets(f: Filter, x: Field)
    requires Accepted(x) && !EmptyArray(x) && Unset(f, x) && SetsWellFormed(f)
    ensures SetsWellFormed(Extend(f, x))
  {
    if x.Ids? || x.Authors? {
      assert Items(x.strings, true)[0] in FilterSets.SortedDistinct(Items(x.strings, true));
    }
    if x.TagItem? {
      var items := Items(x.strings, FixedSizeTag(x.key));
      assert items[0] in FilterSets.SortedDistinct(items);
      assert [x.key[0]] == x.key;
    }
  }

  lemma StaysUnset(f: Filter, x: Field, y: Field)
    requires Accepted(x) && !EmptyArray(x) && Unset(f, y) && !SameKey(x, y)
    ensures Unset(Extend(f, x), y)
  {
    if x.TagItem? && y.TagItem? { assert [x.key[0]] == x.key; }
  }

  /** The members still to come have other keys. */
  lemma StillUnset(f: Filter, fields: seq<Field>, n: nat)
    requires n < |fields| && DistinctKeys(fields) && Accepted(fields[n]) && !EmptyArray(fields[n])
    requires forall j :: n <= j < |fields| ==> Unset(f, fields[j])
    ensures forall j :: n < j < |fields| ==> Unset(Extend(f, fields[n]), fields[j])
  {
    forall j | n < j < |fields| ensures Unset(Extend(f, fields[n]), fields[j]) { StaysUnset(f, fields[n], fields[j]); }
  }

  lemma BoundedByOneMore(fields: seq<Field>, x: Field)
    ensures BoundedInTime(fields + [x]) <==> BoundedInTime(fields) || BoundsTime(x)
  {
    assert (fields + [x])[|fields|] == x;
    assert forall y :: y in fields ==> y in fields + [x];
  }

  /** What one more member does to the number of tag items, the limit and the bounds. */
  lemma ExtendCounts(f: Filter, fields: seq<Field>, n: nat)
    requires n < |fields| && CompiledTo(f, fields, n) && Accepted(fields[n])
    ensures
      var g := if EmptyArray(fields[n]) then f else Extend(f, fields[n]);
      && |g.tags| == NumTags(fields[..n + 1]) && g.limit == LastLimit(fields[..n + 1])
      && (Bounded(g) <==> BoundedInTime(fields[..n + 1]))
      && !g.neverMatch && g.until <= MAX_U64
  {
    assert Unset(f, fields[n]);
    assert fields[..n + 1] == fields[..n] + [fields[n]];
    BoundedByOneMore(fields[..n], fields[n]);
    assert fields[..n + 1][..n] == fields[..n] && fields[..n + 1][n] == fields[n];
  }

  lemma ExtendMeaning(f: Filter, fields: seq<Field>, n: nat)
    requires n < |fields| && CompiledTo(f, fields, n) && Accepted(fields[n])
    ensures
      var g := if EmptyArray(fields[n]) then f else Extend(f, fields[n]);
      forall e: Event :: e.createdAt <= MAX_U64 ==> (Matches(g, e) <==> AdmitsAll(fields[..n + 1], e))
  {
    var x := fields[n];
    assert Unset(f, x);
    forall e: Event | e.createdAt <= MAX_U64
      ensures Matches(if EmptyArray(x) then f else Extend(f, x), e) <==> AdmitsAll(fields[..n + 1], e)
    {
      AdmitsAllStep(fields, n, e);
      if !EmptyArray(x) { ExtendAdmits(f, x, e); }
    }
  }

  lemma CompileStep(f: Filter, fields: seq<Field>, n: nat)
    requires n < |fields| && DistinctKeys(fields) && CompiledTo(f, fields, n) && Accepted(fields[n])
    ensures CompiledTo(if EmptyArray(fields[n]) then f else Extend(f, fields[n]), fields, n + 1)
  {
    ExtendCounts(f, fields, n);
    ExtendMeaning(f, fields, n);
    if !EmptyArray(fields[n]) {
      assert Unset(f, fields[n]);
      ExtendSets(f, fields[n]);
      StillUnset(f, fields, n);
    }
  }

  /** Hex decoding of all strings. */
  method DecodeAll(strings: seq<Bytes>) returns (r: Result<seq<Bytes>>)
    ensures r.Ok? <==> AllHex(strings)
    ensures r.Ok? ==> r.value == Items(strings, true)
  {
    var arr: seq<Bytes> := [];
    for i := 0 to |strings|
      invariant |arr| == i && forall k :: 0 <= k < i ==> FromHex(strings[k]) == Some(arr[k])
    {
      var item := FromHex(strings[i]);
      if item.None? { return Err("from_hex"); }
      arr := arr + [item.value];
    }
    r := Ok(arr);
  }

  /** The FilterSetBytes of one member, or the reason the constructor threw. */
  method BuildSet(strings: seq<Bytes>, hexDecode: bool, minSize: nat, maxSize: nat) returns (r: Result<seq<Bytes>>)
    requires maxSize <= 255
    ensures r.Ok? <==> (hexDecode ==> AllHex(strings)) && SetFits(Items(strings, hexDecode), minSize, maxSize)
    ensures r.Ok? ==> r.value == FilterSets.SortedDistinct(Items(strings, hexDecode))
  {
    var arr := strings;
    if hexDecode {
      var decoded := DecodeAll(strings);
      if decoded.Err? { return decoded; }
      arr := decoded.value;
    }
    var s := FilterSets.Build(arr, minSize, maxSize);
    r := match s case Ok(v) => Ok(v.Contents()) case Err(e) => Err(e);
  }

  /** One turn of the constructor's loop for a member that is not an empty array;
      `major` is what it adds to numMajorFields. */
  method CompileField(f: Filter, x: Field) returns (r: Result<Filter>, major: nat)
    requires !EmptyArray(x) && Unset(f, x)
    ensures r.Ok? <==> Accepted(x)
    ensures r.Ok? ==> r.value == Extend(f, x) && MajorFields(r.value) == MajorFields(f) + major
  {
    major := 0;
    match x {
      case Ids(s) =>
        var items := BuildSet(s, true, 32, 32);
        if items.Err? { return Err(items.reason), 0; }
        return Ok(f.(ids := Some(items.value))), 1;
      case Authors(s) =>
        var items := BuildSet(s, true, 32, 32);
        if items.Err? { return Err(items.reason), 0; }
        return Ok(f.(authors := Some(items.value))), 1;
      case Kinds(s) =>
        if exists k :: k in s && k > MAX_U64 { return Err("not an unsigned number"), 1; }
        return Ok(f.(kinds := Some(SortedKinds(s)))), 1;
      case TagItem(k, s) =>
        if |k| != 1 { return Err("unindexed tag filter"), 1; }
        var fixedSize := FixedSizeTag(k);
        var items := BuildSet(s, fixedSize, if fixedSize then 32 else 0, if fixedSize then 32 else 255);
        if items.Err? { return Err(items.reason), 1; }
        return Ok(f.(tags := f.tags + [TagFilter(k[0], items.value)])), 1;
      case Since(n) =>
        if n > MAX_U64 { return Err("not an unsigned number"), 0; }
        return Ok(f.(since := n)), 0;
      case Until(n) =>
        if n > MAX_U64 { return Err("not an unsigned number"), 0; }
        return Ok(f.(until := n)), 0;
      case Limit(n) =>
        if n > MAX_U64 { return Err("not an unsigned number"), 0; }
        return Ok(f.(limit := n)), 0;
      case Other(_) => return Err("unrecognised filter item"), 0;
    }
  }

  /** The NostrFilter constructor. It succeeds exactly on objects of acceptable
      members with at most three tag items, and the compiled filter matches an
      event exactly when every member of the object admits it. */
  method Compile(fields: seq<Field>, maxFilterLimit: nat) returns (r: Result<Filter>)
    requires DistinctKeys(fields)
    ensures r.Ok? <==> (forall i :: 0 <= i < |fields| ==> Accepted(fields[i])) && NumTags(fields) <= 3
    ensures r.Ok? ==> WellFormed(r.value) && r.value.until <= MAX_U64
    ensures r.Ok? ==> forall e: Event :: e.createdAt <= MAX_U64 ==>
      (Matches(r.value, e) <==> forall i :: 0 <= i < |fields| ==> Admits(fields[i], e))
    ensures r.Ok? ==> (r.value.neverMatch <==> exists i :: 0 <= i < |fields| && EmptyArray(fields[i]))
    ensures r.Ok? ==> r.value.limit == if LastLimit(fields) > maxFilterLimit then maxFilterLimit else LastLimit(fields)
    ensures r.Ok? ==> (Bounded(r.value) <==> BoundedInTime(fields))
  {
    var f, numMajorFields, neverMatch := EMPTY, 0, false;
    for n := 0 to |fields|
      invariant CompiledTo(f, fields, n)
      invariant numMajorFields == MajorFields(f)
      invariant neverMatch <==> exists i :: 0 <= i < n && EmptyArray(fields[i])
      invariant forall i :: 0 <= i < n ==> Accepted(fields[i])
    {
      assert Unset(f, fields[n]);
      if EmptyArray(fields[n]) {
        CompileStep(f, fields, n);
        neverMatch := true;
      } else {
        var g, major := CompileField(f, fields[n]);
        if g.Err? { return Err(g.reason); }
        CompileStep(f, fields, n);
        f, numMajorFields := g.value, numMajorFields + major;
      }
    }
    assert fields[..|fields|] == fields;
    if |f.tags| > 3 { return Err("too many tags in filter"); }
    var compiled := f.(
      neverMatch := neverMatch,
      limit := if f.limit > maxFilterLimit then maxFilterLimit else f.limit,
      indexOnlyScans := numMajorFields <= 1 || (numMajorFields == 2 && f.authors.Some? && f.kinds.Some?));
    forall e: Event | e.createdAt <= MAX_U64
      ensures Matches(compiled, e) <==> forall i :: 0 <= i < |fields| ==> Admits(fields[i], e)
    {
      CompiledMeaning(f, compiled, fields, e);
    }
    r := Ok(compiled);
  }

  /** An empty array admits nothing, which is what neverMatch records. */
  lemma CompiledMeaning(f: Filter, compiled: Filter, fields: seq<Field>, e: Event)
    requires Matches(f, e) <==> AdmitsAll(fields, e)
    requires !f.neverMatch && (compiled.neverMatch <==> exists i :: 0 <= i < |fields| && EmptyArray(fields[i]))
    requires compiled == f.(neverMatch := compiled.neverMatch, limit := compiled.limit, indexOnlyScans := compiled.indexOnlyScans)
    ensures Matches(compiled, e) <==> forall i :: 0 <= i < |fields| ==> Admits(fields[i], e)
  {
    assert Matches(compiled, e) <==> Matches(f, e) && !compiled.neverMatch;
    assert forall i :: 0 <= i < |fields| && EmptyArray(fields[i]) ==> !Admits(fields[i], e);
  }

  // ---------------------------------------------------------------------------
  // Matching

  /** NostrFilter::doesMatch, with its loop over the tag items and the early
      exit from the loop over the event's tags. */
  method DoesMatch(f: Filter, e: Event) returns (r: bool)
    ensures r <==> Matches(f, e)
  {
    if f.neverMatch || !MatchesTimes(f, e.createdAt) { return false; }
    if f.ids.Some? && e.id !in f.ids.value { return false; }
    if f.authors.Some? && e.pubkey !in f.authors.value { return false; }
    if f.kinds.Some? && e.kind !in f.kinds.value { return false; }
    for i := 0 to |f.tags|
      invariant forall k :: 0 <= k < i ==> HasTag(e, f.tags[k])
    {
      var foundMatch := false;
      var k := 0;
      while k < |e.tags| && !foundMatch
        invariant 0 <= k <= |e.tags|
        invariant foundMatch ==> HasTag(e, f.tags[i])
        invariant !foundMatch ==> forall m :: 0 <= m < k ==> !(e.tags[m].name == f.tags[i].name && e.tags[m].value in f.tags[i].values)
        decreases |e.tags| - k, !foundMatch
      {
        foundMatch := e.tags[k].name == f.tags[i].name && e.tags[k].value in f.tags[i].values;
        k := k + 1;
      }
      if !foundMatch {
        assert f.tags[i] in f.tags && !HasTag(e, f.tags[i]);
        return false;
      }
    }
    return true;
  }

  // ---------------------------------------------------------------------------
  // Groups

  predicate AcceptedObject(fields: seq<Field>) {
    (forall i :: 0 <= i < |fields| ==> Accepted(fields[i])) && NumTags(fields) <= 3
  }

  predicate AdmittedBy(fields: seq<Field>, e: Event) {
    forall i :: 0 <= i < |fields| ==> Admits(fields[i], e)
  }

  /** The filters kept so far ask for what the first `n` objects ask for. */
  ghost predicate GroupMeans(filters: seq<Filter>, objects: seq<seq<Field>>, n: nat)
    requires n <= |objects|
  {
    forall e: Event :: e.createdAt <= MAX_U64 ==>
      (GroupMatches(filters, e) <==> exists j :: 0 <= j < n && AdmittedBy(objects[j], e))
  }

  /** One more filter, which is dropped if nothing can match it. */
  lemma GroupStep(filters: seq<Filter>, objects: seq<seq<Field>>, n: nat, f: Filter)
    requires n < |objects| && GroupMeans(filters, objects, n)
    requires forall e: Event :: e.createdAt <= MAX_U64 ==> (Matches(f, e) <==> AdmittedBy(objects[n], e))
    ensures GroupMeans(if f.neverMatch then filters else filters + [f], objects, n + 1)
  {
    var more := if f.neverMatch then filters else filters + [f];
    forall e: Event | e.createdAt <= MAX_U64
      ensures GroupMatches(more, e) <==> exists j :: 0 <= j < n + 1 && AdmittedBy(objects[j], e)
    {
      if GroupMatches(filters, e) {
        var i :| 0 <= i < |filters| && Matches(filters[i], e);
        assert Matches(more[i], e);
      }
      if AdmittedBy(objects[n], e) { assert Matches(more[|filters|], e); }
    }
  }

  predicate NeverMatches(fields: seq<Field>) {
    exists x :: x in fields && EmptyArray(x)
  }

  /** The objects that something can match. */
  function Kept(objects: seq<seq<Field>>): (r: seq<seq<Field>>) {
    if objects == [] then []
    else
      var rest, last := Kept(objects[..|objects| - 1]), objects[|objects| - 1];
      if NeverMatches(last) then rest else rest + [last]
  }

  /** The filters are those of the objects, one by one. */
  ghost predicate CompiledFrom(filters: seq<Filter>, objects: seq<seq<Field>>) {
    && |filters| == |objects|
    && forall n :: 0 <= n < |filters| ==> (Bounded(filters[n]) <==> BoundedInTime(objects[n]))
  }

  /** The NostrFilterGroup constructor: an event matches the group exactly when it is
      admitted by one of the request's filter objects, and no filter is kept that
      cannot match. */
  method CompileGroup(objects: seq<seq<Field>>, maxFilterLimit: nat) returns (r: Result<seq<Filter>>)
    requires forall n :: 0 <= n < |objects| ==> DistinctKeys(objects[n])
    ensures r.Ok? <==> objects != [] && forall n :: 0 <= n < |objects| ==> AcceptedObject(objects[n])
    ensures r.Ok? ==> GroupMeans(r.value, objects, |objects|) && CompiledFrom(r.value, Kept(objects))
    ensures r.Ok? ==> forall f :: f in r.value ==> WellFormed(f) && !f.neverMatch && f.limit <= maxFilterLimit && f.until <= MAX_U64
  {
    if |objects| == 0 { return Err("too small"); }
    var filters: seq<Filter> := [];
    for n := 0 to |objects|
      invariant GroupMeans(filters, objects, n) && CompiledFrom(filters, Kept(objects[..n]))
      invariant forall f :: f in filters ==> WellFormed(f) && !f.neverMatch && f.limit <= maxFilterLimit && f.until <= MAX_U64
      invariant forall j :: 0 <= j < n ==> AcceptedObject(objects[j])
    {
      var f := Compile(objects[n], maxFilterLimit);
      if f.Err? {
        assert !AcceptedObject(objects[n]);
        return Err(f.reason);
      }
      GroupStep(filters, objects, n, f.value);
      assert objects[..n + 1][..n] == objects[..n];
      assert f.value.neverMatch <==> NeverMatches(objects[n]);
      if !f.value.neverMatch { filters := filters + [f.value]; }
    }
    assert objects[..|objects|] == objects;
    return Ok(filters);
  }

  /** NostrFilterGroup::doesMatch. */
  method GroupDoesMatch(filters: seq<Filter>, e: Event) returns (r: bool)
    ensures r <==> GroupMatches(filters, e)
  {
    for i := 0 to |filters|
      invariant forall k :: 0 <= k < i ==> !Matches(filters[k], e)
    {
      r := DoesMatch(filters[i], e);
      if r { return true; }
    }
    return false;
  }
}
