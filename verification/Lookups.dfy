/** The inverted index from event fields to installed filters, as values
    (src/ActiveMonitors.h), and the ephemeral-kind tracker
    (src/EphemeralSubTracker.h). */
module Lookups {
  import opened ByteStrings
  import opened Events
  import opened Filters

  datatype SubKey = SubKey(connId: nat, subId: Bytes)

  function OfConn(keys: set<SubKey>, connId: nat): (r: set<SubKey>) {
    set k | k in keys && k.connId == connId
  }

  /** A pointer to a filter inside an installed subscription. */
  datatype FilterRef = FilterRef(sub: SubKey, index: nat)

  /** The key of a monitor set: allIds, allAuthors, allTags and allKinds share one
      map here, and allOthers is the set under `CatchAll`. */
  datatype MonitorKey =
    | Id(text: Bytes)
    | Author(text: Bytes)
    | TagSpec(text: Bytes)
    | Kind(kind: nat)
    | CatchAll

  /** Filters with the last event each was tried on. */
  type MonitorSet = map<FilterRef, nat>

  type Index = map<MonitorKey, MonitorSet>

  predicate Has(m: Index, k: MonitorKey, r: FilterRef) {
    k in m && r in m[k]
  }

  function Put(m: Index, k: MonitorKey, r: FilterRef, latest: nat): (m': Index)
    requires !Has(m, k, r)
  {
    m[k := (if k in m then m[k] else map[])[r := latest]]
  }

  function Drop(m: Index, k: MonitorKey, r: FilterRef): (m': Index)
    requires Has(m, k, r)
  {
    if m[k] - {r} == map[] then m - {k} else m[k := m[k] - {r}]
  }

  predicate NoEmptySets(m: Index) {
    forall k :: k in m ==> m[k] != map[]
  }

  lemma PutHas(m: Index, k: MonitorKey, r: FilterRef, latest: nat)
    requires !Has(m, k, r)
    ensures forall k', r' :: Has(Put(m, k, r, latest), k', r') <==> Has(m, k', r') || (k' == k && r' == r)
    ensures forall k', r' :: Has(m, k', r') ==> Put(m, k, r, latest)[k'][r'] == m[k'][r']
    ensures Put(m, k, r, latest)[k][r] == latest
    ensures NoEmptySets(m) ==> NoEmptySets(Put(m, k, r, latest))
  {
    var m' := Put(m, k, r, latest);
    if NoEmptySets(m) {
      forall k' | k' in m' ensures m'[k'] != map[] {
        if k' == k { assert r in m'[k]; }
      }
    }
  }

  lemma DropHas(m: Index, k: MonitorKey, r: FilterRef)
    requires Has(m, k, r) && NoEmptySets(m)
    ensures forall k', r' :: Has(Drop(m, k, r), k', r') <==> Has(m, k', r') && !(k' == k && r' == r)
    ensures forall k', r' :: Has(Drop(m, k, r), k', r') ==> Drop(m, k, r)[k'][r'] == m[k'][r']
    ensures NoEmptySets(Drop(m, k, r))
  {
    assert forall r' :: r' in m[k] - {r} <==> r' in m[k] && r' != r;
  }

  // ---------------------------------------------------------------------------
  // The keys a filter is installed under

  function Wrap(make: Bytes -> MonitorKey, items: seq<Bytes>): (r: seq<MonitorKey>)
    ensures |r| == |items| && forall i :: 0 <= i < |r| ==> r[i] == make(items[i])
  {
    seq(|items|, i requires 0 <= i < |items| => make(items[i]))
  }

  function TagKeys(tags: seq<TagFilter>): (r: seq<MonitorKey>)
    ensures forall k :: k in r <==> InTags(tags, k)
  {
    if tags == [] then []
    else
      var n := |tags| - 1;
      var last := Wrap(v => TagSpec([tags[n].name] + v), tags[n].values);
      var r := TagKeys(tags[..n]) + last;
      assert forall k :: k in r <==> InTags(tags, k) by {
        TagKeysStep(tags, TagKeys(tags[..n]), last);
      }
      r
  }

  predicate InTag(tf: TagFilter, text: Bytes) {
    text != [] && text[0] == tf.name && text[1..] in tf.values
  }

  predicate InTags(tags: seq<TagFilter>, k: MonitorKey) {
    k.TagSpec? && exists i :: 0 <= i < |tags| && InTag(tags[i], k.text)
  }

  lemma TagKeysStep(tags: seq<TagFilter>, before: seq<MonitorKey>, last: seq<MonitorKey>)
    requires tags != []
    requires forall k :: k in before <==> InTags(tags[..|tags| - 1], k)
    requires last == Wrap(v => TagSpec([tags[|tags| - 1].name] + v), tags[|tags| - 1].values)
    ensures forall k :: k in before + last <==> InTags(tags, k)
  {
    var n := |tags| - 1;
    forall k ensures k in last <==> k.TagSpec? && InTag(tags[n], k.text) {
      if k in last {
        var i :| 0 <= i < |last| && last[i] == k;
        assert k.text[1..] == tags[n].values[i];
      }
      if k.TagSpec? && InTag(tags[n], k.text) {
        var i :| 0 <= i < |tags[n].values| && tags[n].values[i] == k.text[1..];
        assert k.text == [k.text[0]] + k.text[1..];
        assert last[i] == k;
      }
    }
    forall k ensures k in before + last <==> InTags(tags, k) {
      if k in before {
        var i :| 0 <= i < n && InTag(tags[..n][i], k.text);
        assert InTag(tags[i], k.text);
      }
      if InTags(tags, k) {
        var i :| 0 <= i < |tags| && InTag(tags[i], k.text);
        if i < n { assert InTag(tags[..n][i], k.text); }
      }
    }
  }

  /** One field of the filter is selected, in this order of preference. */
  function KeysOf(f: Filter): (r: seq<MonitorKey>) {
    if f.ids.Some? then Wrap(v => Id(v), f.ids.value)
    else if f.authors.Some? then Wrap(v => Author(v), f.authors.value)
    else if f.tags != [] then TagKeys(f.tags)
    else if f.kinds.Some? then seq(|f.kinds.value|, i requires 0 <= i < |f.kinds.value| => Kind(f.kinds.value[i]))
    else [CatchAll]
  }

  /** The keys that an incoming event is looked up under, in order. */
  function EventKeys(e: Event): (r: seq<MonitorKey>) {
    [Id(e.id), Author(e.pubkey)] +
    seq(|e.tags|, i requires 0 <= i < |e.tags| => TagSpec([e.tags[i].name] + e.tags[i].value)) +
    [Kind(e.kind), CatchAll]
  }

  /** An event that a filter matches is looked up under one of its keys: it is
      enough to install a filter under one of its fields. */
  lemma MatchIsFound(f: Filter, e: Event)
    requires Matches(f, e)
    ensures exists k :: k in KeysOf(f) && k in EventKeys(e)
  {
    var keys := EventKeys(e);
    assert keys[0] == Id(e.id) && keys[1] == Author(e.pubkey);
    assert keys[|keys| - 2] == Kind(e.kind) && keys[|keys| - 1] == CatchAll;
    assert Id(e.id) in keys && Author(e.pubkey) in keys && Kind(e.kind) in keys && CatchAll in keys;
    if f.ids.Some? {
      var i :| 0 <= i < |f.ids.value| && f.ids.value[i] == e.id;
      assert KeysOf(f)[i] == Id(e.id) && Id(e.id) in KeysOf(f);
    } else if f.authors.Some? {
      var i :| 0 <= i < |f.authors.value| && f.authors.value[i] == e.pubkey;
      assert KeysOf(f)[i] == Author(e.pubkey) && Author(e.pubkey) in KeysOf(f);
    } else if f.tags != [] {
      assert HasTag(e, f.tags[0]);
      var t :| t in e.tags && t.name == f.tags[0].name && t.value in f.tags[0].values;
      var j :| 0 <= j < |e.tags| && e.tags[j] == t;
      var k := TagSpec([t.name] + t.value);
      assert k.text[1..] == t.value && InTag(f.tags[0], k.text);
      assert InTags(f.tags, k) && k in KeysOf(f);
      assert keys[2 + j] == k;
    } else if f.kinds.Some? {
      var i :| 0 <= i < |f.kinds.value| && f.kinds.value[i] == e.kind;
      assert KeysOf(f)[i] == Kind(e.kind) && Kind(e.kind) in KeysOf(f);
    } else {
      assert KeysOf(f)[0] == CatchAll;
    }
  }

  predicate NoRepeatedKeys(keys: seq<MonitorKey>) {
    forall i, j :: 0 <= i < j < |keys| ==> keys[i] != keys[j]
  }

  lemma WrapDistinct(make: Bytes -> MonitorKey, items: seq<Bytes>)
    requires FilterSets.StrictlyIncreasing(items)
    requires forall a, b :: make(a) == make(b) ==> a == b
    ensures NoRepeatedKeys(Wrap(make, items))
  {
    forall i, j | 0 <= i < j < |items| ensures items[i] != items[j] { LessIrreflexive(items[i]); }
  }

  lemma {:induction false} TagKeysDistinct(tags: seq<TagFilter>)
    requires forall i :: 0 <= i < |tags| ==> FilterSets.StrictlyIncreasing(tags[i].values)
    requires forall i, j :: 0 <= i < j < |tags| ==> tags[i].name != tags[j].name
    ensures NoRepeatedKeys(TagKeys(tags))
    decreases |tags|
  {
    if tags != [] {
      var n := |tags| - 1;
      TagKeysDistinct(tags[..n]);
      var make := v => TagSpec([tags[n].name] + v);
      assert forall a: Bytes, b: Bytes :: make(a) == make(b) ==> a == b by {
        forall a: Bytes, b: Bytes | make(a) == make(b) ensures a == b {
          assert ([tags[n].name] + a)[1..] == a && ([tags[n].name] + b)[1..] == b;
        }
      }
      WrapDistinct(make, tags[n].values);
      var before, last := TagKeys(tags[..n]), Wrap(make, tags[n].values);
      forall i, j | 0 <= i < |before| && 0 <= j < |last| ensures before[i] != last[j] {
        assert before[i] in before;
        var m :| 0 <= m < n && InTag(tags[..n][m], before[i].text);
      }
    }
  }

  /** Every field of a filter set is listed once, so a filter is installed once
      under each of its keys. */
  lemma KeysDistinct(f: Filter)
    requires SetsWellFormed(f)
    ensures NoRepeatedKeys(KeysOf(f))
  {
    if f.ids.Some? { WrapDistinct(v => Id(v), f.ids.value); }
    else if f.authors.Some? { WrapDistinct(v => Author(v), f.authors.value); }
    else if f.tags != [] { TagKeysDistinct(f.tags); }
  }
}
