/** What the filters of a request ask of an event, both as the JSON that clients send:
    the constructor of src/filters.h and the parser of src/events_parse.cpp decode the
    texts of either side alike. */
module Requests {
  import opened ByteStrings
  import opened Results
  import opened Events
  import opened Texts
  import opened Filters
  import Packed
  import Parsing

  /** Two texts that spell the same bytes. */
  predicate SameHex(a: Bytes, b: Bytes) {
    FromHex(a).Some? && FromHex(a) == FromHex(b)
  }

  /** A tag of the event has the name, and its text is in the list. */
  predicate TagAsked(x: Parsing.Json, key: Bytes, strings: seq<Bytes>)
    requires Parsing.TagTyped(x)
  {
    Parsing.Named(x, key) &&
    if key == ['e' as int] || key == ['p' as int] then exists w :: w in strings && SameHex(w, Parsing.SecondText(x))
    else Parsing.SecondText(x) in strings
  }

  /** What a member of a filter object asks of an event. Every replaceable event counts
      as having a d-tag with an empty text. */
  predicate AsksFor(m: Field, v: map<string, Parsing.Json>)
    requires Parsing.Typed(v)
  {
    var kind, items := v["kind"].n, v["tags"].items;
    match m
    case Ids(s) => exists w :: w in s && SameHex(w, v["id"].text)
    case Authors(s) => exists w :: w in s && SameHex(w, v["pubkey"].text)
    case Kinds(s) => kind in s
    case TagItem(key, s) =>
      || (exists i :: 0 <= i < |items| && TagAsked(items[i], key, s))
      || (key == ['d' as int] && [] in s && (kind in {0, 3, 41} || 10_000 <= kind < 20_000 || 30_000 <= kind < 40_000))
    case Since(n) => n <= v["created_at"].n
    case Until(n) => v["created_at"].n <= n
    case Limit(_) => true
    case Other(_) => false
  }

  lemma Decoded(strings: seq<Bytes>, b: Bytes)
    requires AllHex(strings)
    ensures b in Items(strings, true) <==> exists w :: w in strings && FromHex(w) == Some(b)
  {
    if b in Items(strings, true) {
      var i :| 0 <= i < |strings| && Items(strings, true)[i] == b;
      assert strings[i] in strings;
    }
    if w :| w in strings && FromHex(w) == Some(b) {
      var i :| 0 <= i < |strings| && strings[i] == w;
      assert Items(strings, true)[i] == b;
    }
  }

  /** The packed tags are those that some tag of the JSON carries. */
  lemma PackedTag(items: seq<Parsing.Json>, t: Tag)
    requires forall i :: 0 <= i < |items| ==> Parsing.TagTyped(items[i])
    ensures t in Parsing.IndexedAll(Parsing.TypedTags(items)) <==> exists i :: 0 <= i < |items| && Parsing.Carries(items[i], t)
  {
    var at := Parsing.TagsTaken(items);
    var list := Parsing.IndexedAll(Parsing.TypedTags(items));
    if i :| 0 <= i < |items| && Parsing.Carries(items[i], t) {
      var j :| 0 <= j < |at| && at[j] == i;
      assert Parsing.Carries(items[i], list[j]);
    }
  }

  /** A tag of the JSON is asked for if it carries a packed tag that the member admits. */
  lemma TagAdmitted(x: Parsing.Json, key: Bytes, strings: seq<Bytes>)
    requires Parsing.TagTyped(x) && Accepted(TagItem(key, strings)) && strings != []
    ensures TagAsked(x, key, strings) <==>
      exists t :: Parsing.Carries(x, t) && [t.name] == key && t.value in Items(strings, FixedSizeTag(key))
  {
    var text := Parsing.SecondText(x);
    if FixedSizeTag(key) {
      if TagAsked(x, key, strings) {
        var w :| w in strings && SameHex(w, text);
        Decoded(strings, FromHex(w).value);
        assert Parsing.Carries(x, Tag(key[0], FromHex(w).value));
      }
      if t :| Parsing.Carries(x, t) && [t.name] == key && t.value in Items(strings, true) { Decoded(strings, t.value); }
    } else if TagAsked(x, key, strings) {
      assert |text| <= 255;
      assert Parsing.Carries(x, Tag(key[0], text));
    }
  }

  /** The tags of the event are those of its JSON and, if it is replaceable, an empty one. */
  lemma PackedTags(v: map<string, Parsing.Json>, t: Tag)
    requires Parsing.Typed(v)
    ensures
      var kind, items := v["kind"].n, v["tags"].items;
      t in Parsing.TagsOf(Parsing.EventIn(v)) <==>
        || (exists i :: 0 <= i < |items| && Parsing.Carries(items[i], t))
        || (t == Tag('d' as int, []) && (kind in {0, 3, 41} || 10_000 <= kind < 20_000 || 30_000 <= kind < 40_000))
  {
    PackedTag(v["tags"].items, t);
  }

  lemma TagMemberAdmits(key: Bytes, strings: seq<Bytes>, v: map<string, Parsing.Json>, limits: Parsing.Limits)
    requires Accepted(TagItem(key, strings)) && Parsing.Typed(v) && Parsing.Acceptable(Parsing.EventIn(v), limits)
    ensures Admits(TagItem(key, strings), Parsing.EventOf(Parsing.EventIn(v))) <==> AsksFor(TagItem(key, strings), v)
  {
    var m, e, items := TagItem(key, strings), Parsing.EventOf(Parsing.EventIn(v)), v["tags"].items;
    if strings != [] {
      if Admits(m, e) {
        var t :| t in e.tags && [t.name] == key && t.value in Items(strings, FixedSizeTag(key));
        PackedTags(v, t);
        if i :| 0 <= i < |items| && Parsing.Carries(items[i], t) { TagAdmitted(items[i], key, strings); }
      }
      if i :| 0 <= i < |items| && TagAsked(items[i], key, strings) {
        TagAdmitted(items[i], key, strings);
        var t :| Parsing.Carries(items[i], t) && [t.name] == key && t.value in Items(strings, FixedSizeTag(key));
        PackedTags(v, t);
      }
      PackedTags(v, Tag('d' as int, []));
    }
  }

  /** An accepted member admits the event that is packed from the JSON exactly if it asks
      for it. */
  lemma MemberAdmits(m: Field, v: map<string, Parsing.Json>, limits: Parsing.Limits)
    requires Accepted(m) && Parsing.Typed(v) && Parsing.Acceptable(Parsing.EventIn(v), limits)
    ensures Admits(m, Parsing.EventOf(Parsing.EventIn(v))) <==> AsksFor(m, v)
  {
    match m
    case Ids(s) => if s != [] { Decoded(s, Parsing.EventOf(Parsing.EventIn(v)).id); }
    case Authors(s) => if s != [] { Decoded(s, Parsing.EventOf(Parsing.EventIn(v)).pubkey); }
    case TagItem(key, s) => TagMemberAdmits(key, s, v, limits);
    case _ =>
  }

  /** A filter object and an event, from their JSON to the answer: the filter is compiled,
      the event packed and its bytes viewed. They match exactly if every member of the
      object asks for the event. */
  method MatchTexts(fields: seq<Field>, maxFilterLimit: nat, v: map<string, Parsing.Json>, limits: Parsing.Limits) returns (r: Result<bool>)
    requires DistinctKeys(fields)
    ensures r.Ok? <==> AcceptedObject(fields) && Parsing.Typed(v) && Parsing.Acceptable(Parsing.EventIn(v), limits)
    ensures r.Ok? ==> (r.value <==> forall i :: 0 <= i < |fields| ==> AsksFor(fields[i], v))
  {
    var f := Compile(fields, maxFilterLimit);
    if f.Err? { return Err(f.reason); }
    var buf := Parsing.ToPackedEvent(v, limits);
    if buf.Err? { return Err(buf.reason); }
    ghost var e := Parsing.EventOf(Parsing.EventIn(v));
    var ev := Packed.View(buf.value);
    Packed.PackRoundTrip(e, ev);
    forall i | 0 <= i < |fields| ensures Admits(fields[i], e) <==> AsksFor(fields[i], v) { MemberAdmits(fields[i], v, limits); }
    var answer := DoesMatch(f.value, ev.value);
    r := Ok(answer);
  }
}
