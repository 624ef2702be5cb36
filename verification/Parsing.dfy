/** From a JSON event to its packed form (src/events_parse.cpp). */
module Parsing {
  import opened ByteStrings
  import opened Results
  import opened Events
  import opened Texts
  import opened Packed
  import Store

  /** A JSON value. An unsigned number is one that fits into 64 bits. */
  datatype Json = Text(text: Bytes) | Unsigned(n: nat) | Items(items: seq<Json>) | AnotherType

  /** An event whose members have the right JSON types; ids and keys are still hex. Of a
      tag only the first two fields matter. */
  datatype JsonEvent = JsonEvent(id: Bytes, pubkey: Bytes, createdAt: nat, kind: nat, tags: seq<seq<Bytes>>)

  datatype Limits = Limits(maxNumTags: nat, maxTagValSize: nat)

  /** `expiration` */
  const EXPIRATION: Bytes := [101, 120, 112, 105, 114, 97, 116, 105, 111, 110]

  const MAX_INDEXED_TAG_VAL_SIZE := 255

  // ---------------------------------------------------------------------------
  // What a tag contributes

  function Value(tag: seq<Bytes>): (v: Bytes) {
    if |tag| >= 2 then tag[1] else []
  }

  predicate FixedSize(tag: seq<Bytes>) {
    |tag| >= 1 && (tag[0] == [TAG_E] || tag[0] == [TAG_P])
  }

  predicate TagOk(tag: seq<Bytes>, limits: Limits) {
    && |tag| >= 1
    && (FixedSize(tag) ==> |Value(tag)| == 64 && FromHex(Value(tag)).Some?)
    && (!FixedSize(tag) && |tag[0]| == 1 ==> |Value(tag)| <= limits.maxTagValSize)
  }

  /** The tag as it is indexed, if it is. */
  function Indexed(tag: seq<Bytes>): (r: seq<Tag>) {
    if FixedSize(tag) then
      if FromHex(Value(tag)).Some? then [Tag(tag[0][0], FromHex(Value(tag)).value)] else []
    else if |tag| >= 1 && |tag[0]| == 1 && |Value(tag)| <= MAX_INDEXED_TAG_VAL_SIZE then [Tag(tag[0][0], Value(tag))]
    else []
  }

  function IndexedAll(tags: seq<seq<Bytes>>): (r: seq<Tag>) {
    if tags == [] then [] else IndexedAll(tags[..|tags| - 1]) + Indexed(tags[|tags| - 1])
  }

  /** The value of the first expiration tag. */
  function FirstExpiration(tags: seq<seq<Bytes>>): (r: Option<Bytes>) {
    if tags == [] then None
    else
      var first := FirstExpiration(tags[..|tags| - 1]);
      var last := tags[|tags| - 1];
      if first.None? && |last| >= 1 && last[0] == EXPIRATION then Some(Value(last)) else first
  }

  predicate ExpirationOk(t: Bytes) {
    ParseUint64(t).Some? && ParseUint64(t).value >= 100
  }

  // ---------------------------------------------------------------------------
  // The packed event

  predicate TagsAcceptable(v: JsonEvent, limits: Limits) {
    && (forall i :: 0 <= i < |v.tags| ==> TagOk(v.tags[i], limits))
    && (FirstExpiration(v.tags).Some? ==> ExpirationOk(FirstExpiration(v.tags).value))
  }

  predicate Acceptable(v: JsonEvent, limits: Limits) {
    && FromHex(v.id).Some? && |FromHex(v.id).value| == 32
    && FromHex(v.pubkey).Some? && |FromHex(v.pubkey).value| == 32
    && |v.tags| <= limits.maxNumTags
    && TagsAcceptable(v, limits)
  }

  function ExpirationOf(v: JsonEvent): (n: nat) {
    if IsEphemeral(v.kind) then 1
    else if FirstExpiration(v.tags).Some? && ExpirationOk(FirstExpiration(v.tags).value) then ParseUint64(FirstExpiration(v.tags).value).value
    else 0
  }

  /** The d-tag that every replaceable event gets in front, and every parameterized
      one at the end. */
  function VirtualTag(wanted: bool): (r: seq<Tag>) {
    if wanted then [Tag(TAG_D, [])] else []
  }

  function TagsOf(v: JsonEvent): (r: seq<Tag>) {
    VirtualTag(IsReplaceable(v.kind)) + IndexedAll(v.tags) + VirtualTag(IsParamReplaceable(v.kind))
  }

  function EventOf(v: JsonEvent): (e: Event)
    requires FromHex(v.id).Some? && FromHex(v.pubkey).Some?
  {
    Event(FromHex(v.id).value, FromHex(v.pubkey).value, v.createdAt, v.kind, ExpirationOf(v), TagsOf(v))
  }

  /** The loop over the tags. */
  method AddTag(tagBuilder: TagBuilder, tag: seq<Bytes>, expiration: nat, limits: Limits) returns (r: Result<nat>)
    requires tagBuilder.Valid()
    modifies tagBuilder
    ensures tagBuilder.Valid()
    ensures r.Ok? ==> tagBuilder.tags == old(tagBuilder.tags) + Indexed(tag)
    ensures r.Ok? <==> TagOk(tag, limits) && (tag[0] == EXPIRATION && expiration == 0 ==> ExpirationOk(Value(tag)))
    ensures r.Ok? ==> r.value == if tag[0] == EXPIRATION && expiration == 0 then ParseUint64(Value(tag)).value else expiration
  {
    if |tag| < 1 { return Err("too few fields in tag"); }
    var tagName, tagVal := tag[0], Value(tag);
    if tagName == [TAG_E] || tagName == [TAG_P] {
      if |tagVal| != 64 { return Err("unexpected size for fixed-size tag"); }
      var decoded := FromHex(tagVal);
      if decoded.None? { return Err("from_hex"); }
      HexOnly(tagVal);
      var _ := tagBuilder.Add(tagName[0], decoded.value);
    } else if tagName == EXPIRATION {
      if expiration == 0 {
        var parsed := ParseUint64(tagVal);
        if parsed.None? { return Err("parseUint64"); }
        if parsed.value < 100 { return Err("invalid expiration"); }
        return Ok(parsed.value);
      }
    } else if |tagName| == 1 {
      if |tagVal| > limits.maxTagValSize { return Err("tag val too large"); }
      if |tagVal| <= MAX_INDEXED_TAG_VAL_SIZE {
        var _ := tagBuilder.Add(tagName[0], tagVal);
      }
    }
    return Ok(expiration);
  }

  /** What the loop over the tags has done after `i` of them. */
  ghost predicate TagsDone(v: JsonEvent, i: nat, built: seq<Tag>, expiration: nat, limits: Limits)
    requires i <= |v.tags|
  {
    && built == VirtualTag(IsReplaceable(v.kind)) + IndexedAll(v.tags[..i])
    && (forall k :: 0 <= k < i ==> TagOk(v.tags[k], limits))
    && (expiration == 0 <==> FirstExpiration(v.tags[..i]).None?)
    && (expiration != 0 ==> ExpirationOk(FirstExpiration(v.tags[..i]).value) && expiration == ParseUint64(FirstExpiration(v.tags[..i]).value).value)
  }

  lemma TagsDoneStep(v: JsonEvent, i: nat, built: seq<Tag>, expiration: nat, limits: Limits, built': seq<Tag>, expiration': nat)
    requires i < |v.tags| && TagsDone(v, i, built, expiration, limits) && TagOk(v.tags[i], limits)
    requires v.tags[i][0] == EXPIRATION && expiration == 0 ==> ExpirationOk(Value(v.tags[i]))
    requires built' == built + Indexed(v.tags[i])
    requires expiration' == if v.tags[i][0] == EXPIRATION && expiration == 0 then ParseUint64(Value(v.tags[i])).value else expiration
    ensures TagsDone(v, i + 1, built', expiration', limits)
  {
    assert v.tags[..i + 1][..i] == v.tags[..i];
  }

  /** The first expiration found stays the first. */
  lemma {:induction false} FirstExpirationStays(tags: seq<seq<Bytes>>, i: nat)
    requires i <= |tags| && FirstExpiration(tags[..i]).Some?
    ensures FirstExpiration(tags) == FirstExpiration(tags[..i])
    decreases |tags|
  {
    if i == |tags| {
      assert tags[..i] == tags;
    } else {
      assert tags[..|tags| - 1][..i] == tags[..i];
      FirstExpirationStays(tags[..|tags| - 1], i);
    }
  }

  /** A tag at which the loop gives up makes the event unacceptable. */
  lemma Refused(v: JsonEvent, i: nat, built: seq<Tag>, expiration: nat, limits: Limits)
    requires i < |v.tags| && TagsDone(v, i, built, expiration, limits)
    requires !TagOk(v.tags[i], limits) || (v.tags[i][0] == EXPIRATION && expiration == 0 && !ExpirationOk(Value(v.tags[i])))
    ensures !TagsAcceptable(v, limits)
  {
    if TagOk(v.tags[i], limits) {
      assert v.tags[..i + 1][..i] == v.tags[..i];
      FirstExpirationStays(v.tags, i + 1);
    }
  }

  /** The loop over the tags; returns the expiration. */
  method AddTags(tagBuilder: TagBuilder, v: JsonEvent, limits: Limits) returns (r: Result<nat>)
    requires tagBuilder.Valid() && tagBuilder.tags == VirtualTag(IsReplaceable(v.kind))
    modifies tagBuilder
    ensures tagBuilder.Valid()
    ensures r.Ok? <==> TagsAcceptable(v, limits)
    ensures r.Ok? ==> TagsDone(v, |v.tags|, tagBuilder.tags, r.value, limits)
  {
    var expiration := 0;
    for i := 0 to |v.tags|
      invariant tagBuilder.Valid()
      invariant TagsDone(v, i, tagBuilder.tags, expiration, limits)
    {
      ghost var built, before := tagBuilder.tags, expiration;
      var e := AddTag(tagBuilder, v.tags[i], expiration, limits);
      if e.Err? {
        Refused(v, i, built, before, limits);
        return Err(e.reason);
      }
      expiration := e.value;
      TagsDoneStep(v, i, built, before, limits, tagBuilder.tags, expiration);
    }
    assert v.tags[..|v.tags|] == v.tags;
    return Ok(expiration);
  }

  lemma AllTagsDone(v: JsonEvent, built: seq<Tag>, expiration: nat, limits: Limits)
    requires TagsDone(v, |v.tags|, built, expiration, limits)
    ensures built + VirtualTag(IsParamReplaceable(v.kind)) == TagsOf(v) && expiration <= MAX_U64
    ensures ExpirationOf(v) == if IsEphemeral(v.kind) then 1 else expiration
  {
    assert v.tags[..|v.tags|] == v.tags;
  }

  method PackTyped(v: JsonEvent, limits: Limits) returns (r: Result<Bytes>)
    requires v.createdAt <= MAX_U64 && v.kind <= MAX_U64
    ensures r.Ok? <==> Acceptable(v, limits)
    ensures r.Ok? ==> Fits(EventOf(v)) && r.value == Pack(EventOf(v)) && |r.value| >= HEADER
  {
    var tagBuilder := new TagBuilder();
    var id, pubkey := FromHex(v.id), FromHex(v.pubkey);
    if id.None? || pubkey.None? { return Err("from_hex"); }
    if |id.value| != 32 { return Err("unexpected id size"); }
    if |pubkey.value| != 32 { return Err("unexpected pubkey size"); }
    if IsReplaceable(v.kind) { var _ := tagBuilder.Add(TAG_D, []); }
    if |v.tags| > limits.maxNumTags { return Err("too many tags"); }
    var parsed := AddTags(tagBuilder, v, limits);
    if parsed.Err? { return Err(parsed.reason); }
    AllTagsDone(v, tagBuilder.tags, parsed.value, limits);
    if IsParamReplaceable(v.kind) { var _ := tagBuilder.Add(TAG_D, []); }
    var expiration := if IsEphemeral(v.kind) then 1 else parsed.value;
    assert tagBuilder.tags == TagsOf(v) && expiration == ExpirationOf(v);
    r := Build(id.value, pubkey.value, v.createdAt, v.kind, expiration, tagBuilder);
  }

  // ---------------------------------------------------------------------------
  // JSON types

  predicate HasText(v: map<string, Json>, key: string) {
    key in v && v[key].Text?
  }

  predicate HasUnsigned(v: map<string, Json>, key: string) {
    key in v && v[key].Unsigned? && v[key].n <= MAX_U64
  }

  predicate TagTyped(x: Json) {
    x.Items? && forall i :: 0 <= i < 2 && i < |x.items| ==> x.items[i].Text?
  }

  /** The members that an event needs are there and have their types. */
  predicate Typed(v: map<string, Json>) {
    && "id" in v && v["id"].Text? && "pubkey" in v && v["pubkey"].Text?
    && "created_at" in v && v["created_at"].Unsigned? && v["created_at"].n <= MAX_U64
    && "kind" in v && v["kind"].Unsigned? && v["kind"].n <= MAX_U64
    && "content" in v && v["content"].Text?
    && "tags" in v && v["tags"].Items? && forall i :: 0 <= i < |v["tags"].items| ==> TagTyped(v["tags"].items[i])
  }

  function TagOf(x: Json): (tag: seq<Bytes>)
    requires TagTyped(x)
  {
    if |x.items| == 0 then [] else if |x.items| == 1 then [x.items[0].text] else [x.items[0].text, x.items[1].text]
  }

  function TypedTags(items: seq<Json>): (tags: seq<seq<Bytes>>)
    requires forall i :: 0 <= i < |items| ==> TagTyped(items[i])
  {
    seq(|items|, i requires 0 <= i < |items| => TagOf(items[i]))
  }

  function EventIn(v: map<string, Json>): (e: JsonEvent)
    requires Typed(v)
  {
    JsonEvent(v["id"].text, v["pubkey"].text, v["created_at"].n, v["kind"].n, TypedTags(v["tags"].items))
  }

  method ReadTags(items: seq<Json>) returns (r: Result<seq<seq<Bytes>>>)
    ensures r.Ok? <==> forall i :: 0 <= i < |items| ==> TagTyped(items[i])
    ensures r.Ok? ==> r.value == TypedTags(items)
  {
    var tags: seq<seq<Bytes>> := [];
    for i := 0 to |items|
      invariant |tags| == i && forall k :: 0 <= k < i ==> TagTyped(items[k]) && tags[k] == TagOf(items[k])
    {
      if !items[i].Items? { return Err("tag in tags field was not an array"); }
      var tag := items[i].items;
      if |tag| >= 1 && !tag[0].Text? { return Err("tag name was not a string"); }
      if |tag| >= 2 && !tag[1].Text? { return Err("tag val was not a string"); }
      tags := tags + [TagOf(items[i])];
    }
    r := Ok(tags);
  }

  // ---------------------------------------------------------------------------
  // What the bytes say about the JSON

  predicate Named(x: Json, name: Bytes) {
    x.Items? && |x.items| >= 1 && x.items[0] == Text(name)
  }

  /** The second field, empty if there is none. */
  function SecondText(x: Json): (t: Bytes)
    requires TagTyped(x)
  {
    if |x.items| >= 2 then x.items[1].text else []
  }

  /** A packed tag stands for a tag of the JSON: the same letter, and the same text, but
      for `e` and `p`, whose text is decoded. Longer texts are not packed. */
  predicate Carries(x: Json, t: Tag)
    requires TagTyped(x)
  {
    Named(x, [t.name]) &&
    if t.name == 'e' as int || t.name == 'p' as int then FromHex(SecondText(x)) == Some(t.value)
    else t.value == SecondText(x) && |t.value| <= 255
  }

  /** The packed tags are those that stand for some tag of the JSON, in its order; `at`
      tells for which. */
  ghost predicate TakenFrom(items: seq<Json>, list: seq<Tag>, at: seq<nat>)
    requires forall i :: 0 <= i < |items| ==> TagTyped(items[i])
  {
    && |at| == |list|
    && (forall j :: 0 <= j < |at| ==> at[j] < |items| && Carries(items[at[j]], list[j]))
    && (forall j, k :: 0 <= j < k < |at| ==> at[j] < at[k])
    && (forall i, t :: 0 <= i < |items| && Carries(items[i], t) ==> i in at)
  }

  /** The first expiration tag gives the time, 0 if there is none. */
  ghost predicate ExpiresAt(items: seq<Json>, n: nat)
    requires forall i :: 0 <= i < |items| ==> TagTyped(items[i])
  {
    var name := ['e' as int, 'x' as int, 'p' as int, 'i' as int, 'r' as int, 'a' as int, 't' as int, 'i' as int, 'o' as int, 'n' as int];
    && ((forall i :: 0 <= i < |items| ==> !Named(items[i], name)) ==> n == 0)
    && forall i :: 0 <= i < |items| && Named(items[i], name) && (forall j :: 0 <= j < i ==> !Named(items[j], name)) ==>
        ParseUint64(SecondText(items[i])) == Some(n) && n >= 100
  }

  ghost predicate HeaderSays(v: map<string, Json>, buf: Bytes)
    requires Typed(v) && |buf| >= HEADER
  {
    && FromHex(v["id"].text) == Some(buf[..32])
    && FromHex(v["pubkey"].text) == Some(buf[32..64])
    && Decode(buf[64..72]) == v["created_at"].n
    && Decode(buf[72..80]) == v["kind"].n
    && if 20_000 <= v["kind"].n < 30_000 then Decode(buf[80..88]) == 1 else ExpiresAt(v["tags"].items, Decode(buf[80..88]))
  }

  /** An empty d-tag goes in front of the tags of a replaceable event, and after those of
      a parameterized one. */
  ghost predicate TagsSay(v: map<string, Json>, buf: Bytes, list: seq<Tag>, at: seq<nat>)
    requires Typed(v) && |buf| >= HEADER
  {
    var kind, d := v["kind"].n, Tag('d' as int, []);
    var tags := (if kind in {0, 3, 41} || 10_000 <= kind < 20_000 then [d] else []) + list + (if 30_000 <= kind < 40_000 then [d] else []);
    TakenFrom(v["tags"].items, list, at) && TagsFit(tags) && EncodeTags(tags) == buf[HEADER..]
  }

  /** What one tag of the JSON contributes. */
  lemma IndexedCarries(x: Json)
    requires TagTyped(x)
    ensures |Indexed(TagOf(x))| <= 1 && (forall t :: t in Indexed(TagOf(x)) <==> Carries(x, t))
  {
    assert Value(TagOf(x)) == SecondText(x);
    if |x.items| >= 1 && |x.items[0].text| == 1 { assert x.items[0] == Text([x.items[0].text[0]]); }
  }

  lemma {:induction false} TagsTaken(items: seq<Json>) returns (at: seq<nat>)
    requires forall i :: 0 <= i < |items| ==> TagTyped(items[i])
    ensures TakenFrom(items, IndexedAll(TypedTags(items)), at)
    decreases |items|
  {
    at := [];
    if items != [] {
      var n := |items| - 1;
      at := TagsTaken(items[..n]);
      assert TypedTags(items)[..n] == TypedTags(items[..n]);
      IndexedCarries(items[n]);
      if Indexed(TagOf(items[n])) != [] { at := OneMoreTaken(items, IndexedAll(TypedTags(items[..n])), at); }
      else { assert IndexedAll(TypedTags(items)) == IndexedAll(TypedTags(items[..n])); }
    }
  }

  lemma OneMoreTaken(items: seq<Json>, list: seq<Tag>, at: seq<nat>) returns (at': seq<nat>)
    requires items != [] && forall i :: 0 <= i < |items| ==> TagTyped(items[i])
    requires TakenFrom(items[..|items| - 1], list, at) && Indexed(TagOf(items[|items| - 1])) != []
    ensures TakenFrom(items, list + Indexed(TagOf(items[|items| - 1])), at')
  {
    var n := |items| - 1;
    IndexedCarries(items[n]);
    at' := at + [n];
    assert Indexed(TagOf(items[n])) == [Indexed(TagOf(items[n]))[0]];
    forall i, t | 0 <= i < |items| && Carries(items[i], t) ensures i in at' {
      if i < n { assert Carries(items[..n][i], t); } else { assert at'[|at|] == n; }
    }
  }

  /** The first expiration tag is the one that none comes before. */
  lemma {:induction false} FirstExpirationIs(items: seq<Json>)
    requires forall i :: 0 <= i < |items| ==> TagTyped(items[i])
    ensures FirstExpiration(TypedTags(items)).None? <==> forall i :: 0 <= i < |items| ==> !Named(items[i], EXPIRATION)
    ensures forall i :: 0 <= i < |items| && Named(items[i], EXPIRATION) && (forall j :: 0 <= j < i ==> !Named(items[j], EXPIRATION)) ==>
      FirstExpiration(TypedTags(items)) == Some(SecondText(items[i]))
    decreases |items|
  {
    if items != [] {
      var n := |items| - 1;
      FirstExpirationIs(items[..n]);
      assert TypedTags(items)[..n] == TypedTags(items[..n]);
      assert Value(TagOf(items[n])) == SecondText(items[n]);
      assert forall i :: 0 <= i < n ==> items[..n][i] == items[i];
    }
  }

  /** The parts of the packed event are the members of the JSON. */
  lemma PackedSays(v: map<string, Json>, limits: Limits, buf: Bytes) returns (list: seq<Tag>, at: seq<nat>)
    requires Typed(v) && Acceptable(EventIn(v), limits) && Fits(EventOf(EventIn(v))) && buf == Pack(EventOf(EventIn(v)))
    ensures |buf| >= HEADER && HeaderSays(v, buf) && TagsSay(v, buf, list, at)
  {
    var e, items := EventOf(EventIn(v)), v["tags"].items;
    PackParts(e);
    PowerIs();
    NumberRoundTrip(e.createdAt, 8);
    NumberRoundTrip(e.kind, 8);
    NumberRoundTrip(e.expiration, 8);
    FirstExpirationIs(items);
    at := TagsTaken(items);
    list := IndexedAll(TypedTags(items));
  }

  /** nostrJsonToPackedEvent: it succeeds exactly on objects that have the members of an
      event with their types and are acceptable, and the bytes are the packed form of the
      event with its virtual tags. Part by part they give back the members of the JSON. */
  method ToPackedEvent(v: map<string, Json>, limits: Limits) returns (r: Result<Bytes>)
    ensures r.Ok? <==> Typed(v) && Acceptable(EventIn(v), limits)
    ensures r.Ok? ==> Fits(EventOf(EventIn(v))) && r.value == Pack(EventOf(EventIn(v)))
    ensures r.Ok? ==> |r.value| >= HEADER && HeaderSays(v, r.value) && exists list, at :: TagsSay(v, r.value, list, at)
  {
    if !HasText(v, "id") { return Err("event id field was not a string"); }
    if !HasText(v, "pubkey") { return Err("event pubkey field was not a string"); }
    if !HasUnsigned(v, "created_at") { return Err("event created_at field was not an integer"); }
    if !HasUnsigned(v, "kind") { return Err("event kind field was not an integer"); }
    if !HasText(v, "content") { return Err("event content field was not a string"); }
    if "tags" !in v || !v["tags"].Items? { return Err("tags field not an array"); }
    var tags := ReadTags(v["tags"].items);
    if tags.Err? { return Err(tags.reason); }
    r := PackTyped(JsonEvent(v["id"].text, v["pubkey"].text, v["created_at"].n, v["kind"].n, tags.value), limits);
    if r.Ok? { ghost var list, at := PackedSays(v, limits, r.value); }
  }

  // ---------------------------------------------------------------------------
  // What the rest of the program relies on

  lemma {:induction false} FirstDOf(a: seq<Tag>, b: seq<Tag>)
    ensures FirstD(a + b) == if FirstD(a).Some? then FirstD(a) else FirstD(b)
  {
    if a == [] {
      assert a + b == b;
    } else {
      FirstDOf(a[1..], b);
      assert (a + b)[1..] == a[1..] + b;
    }
  }

  /** Every replaceable event competes for one slot, with an empty d-tag unless it is
      parameterized and has one short enough to be indexed. */
  lemma SlotIsKnown(v: JsonEvent, limits: Limits)
    requires Acceptable(v, limits)
    ensures IsReplaceable(v.kind) ==> FirstD(TagsOf(v)) == Some([])
    ensures IsParamReplaceable(v.kind) ==>
      FirstD(TagsOf(v)) == Some(if FirstD(IndexedAll(v.tags)).Some? then FirstD(IndexedAll(v.tags)).value else [])
    ensures Store.SlotOf(EventOf(v)).Some? <==> IsReplaceable(v.kind) || IsParamReplaceable(v.kind)
  {
    var first, last := VirtualTag(IsReplaceable(v.kind)), VirtualTag(IsParamReplaceable(v.kind));
    FirstDOf(first + IndexedAll(v.tags), last);
    FirstDOf(first, IndexedAll(v.tags));
    assert IsParamReplaceable(v.kind) ==> FirstD(last) == Some([]) && FirstD(first) == None;
    assert IsReplaceable(v.kind) ==> FirstD(first) == Some([]);
  }

  lemma {:induction false} IndexedTagsOk(tags: seq<seq<Bytes>>, t: Tag)
    requires t in IndexedAll(tags) && forall i :: 0 <= i < |tags| ==> FixedSize(tags[i]) ==> |Value(tags[i])| == 64
    ensures t.name == TAG_E || t.name == TAG_P ==> |t.value| == 32
    decreases |tags|
  {
    if tags != [] {
      var n := |tags| - 1;
      if t in IndexedAll(tags[..n]) {
        IndexedTagsOk(tags[..n], t);
      } else if FixedSize(tags[n]) {
        HexOnly(Value(tags[n]));
      }
    }
  }

  /** A parsed event is as the writer expects it, and its expiration is 1 exactly if it
      is ephemeral. */
  lemma ParsedIsWritable(v: JsonEvent, limits: Limits)
    requires Acceptable(v, limits)
    ensures Store.EventOk(EventOf(v))
    ensures EventOf(v).expiration == 1 <==> IsEphemeral(v.kind)
    ensures EventOf(v).expiration == 0 || EventOf(v).expiration == 1 || EventOf(v).expiration >= 100
  {
    forall t | t in TagsOf(v) && t.name == TAG_E ensures |t.value| == 32 {
      assert t in IndexedAll(v.tags);
      IndexedTagsOk(v.tags, t);
    }
  }
}
