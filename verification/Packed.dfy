/** The packed form of an event (src/PackedEvent.h). */
module Packed {
  import opened ByteStrings
  import opened Results
  import opened Events

  const HEADER := 88

  // ---------------------------------------------------------------------------
  // Numbers

  /** Little-endian, `k` bytes. */
  function Encode(n: nat, k: nat): (b: Bytes)
    decreases k
  {
    if k == 0 then [] else [n % 256] + Encode(n / 256, k - 1)
  }

  function Decode(b: Bytes): (n: nat) {
    if b == [] then 0 else b[0] + 256 * Decode(b[1..])
  }

  function Power(k: nat): (p: nat)
    ensures p > 0
  {
    if k == 0 then 1 else 256 * Power(k - 1)
  }

  lemma SplitByte(low: Byte, high: nat)
    ensures (low + 256 * high) % 256 == low && (low + 256 * high) / 256 == high
  {
  }

  lemma {:induction false} NumberRoundTrip(n: nat, k: nat)
    requires n < Power(k)
    ensures |Encode(n, k)| == k && Decode(Encode(n, k)) == n
    decreases k
  {
    if k > 0 {
      NumberRoundTrip(n / 256, k - 1);
      assert Encode(n, k)[1..] == Encode(n / 256, k - 1);
    }
  }

  lemma {:induction false} NumberUnique(b: Bytes)
    ensures Decode(b) < Power(|b|) && Encode(Decode(b), |b|) == b
  {
    if b != [] {
      NumberUnique(b[1..]);
      SplitByte(b[0], Decode(b[1..]));
      assert b == [b[0]] + b[1..];
    }
  }

  /** The lowest byte comes first. */
  lemma LittleEndian(b: Bytes)
    requires |b| == 8
    ensures Decode(b) ==
      (b[0] as int) + 0x100 * (b[1] as int) + 0x1_0000 * (b[2] as int) + 0x100_0000 * (b[3] as int)
      + 0x1_0000_0000 * (b[4] as int) + 0x100_0000_0000 * (b[5] as int)
      + 0x1_0000_0000_0000 * (b[6] as int) + 0x100_0000_0000_0000 * (b[7] as int)
  {
    forall k | 0 <= k < 8 ensures Decode(b[k..]) == b[k] + 256 * Decode(b[k + 1..]) { assert b[k..][1..] == b[k + 1..]; }
    assert b[0..] == b && b[8..] == [];
    assert Decode(b[4..]) == (b[4] as int) + 0x100 * (b[5] as int) + 0x1_0000 * (b[6] as int) + 0x100_0000 * (b[7] as int);
  }

  lemma PowerIs()
    ensures Power(8) == MAX_U64 + 1
  {
    assert Power(1) == 256;
    assert Power(2) == 0x1_0000;
    assert Power(4) == 0x1_0000_0000 by { assert Power(3) == 0x100_0000; }
    assert Power(6) == 0x1_0000_0000_0000 by { assert Power(5) == 0x100_0000_0000; }
    assert Power(7) == 0x100_0000_0000_0000;
  }

  // ---------------------------------------------------------------------------
  // Tags

  predicate TagFits(t: Tag) {
    |t.value| <= 255
  }

  predicate TagsFit(tags: seq<Tag>) {
    forall t :: t in tags ==> TagFits(t)
  }

  function EncodeTag(t: Tag): (b: Bytes)
    requires TagFits(t)
  {
    [t.name, |t.value|] + t.value
  }

  function EncodeTags(tags: seq<Tag>): (b: Bytes)
    requires TagsFit(tags)
  {
    if tags == [] then [] else EncodeTag(tags[0]) + EncodeTags(tags[1..])
  }

  lemma {:induction false} EncodeTagsAppend(tags: seq<Tag>, t: Tag)
    requires TagsFit(tags) && TagFits(t)
    ensures TagsFit(tags + [t]) && EncodeTags(tags + [t]) == EncodeTags(tags) + EncodeTag(t)
  {
    if tags == [] {
      assert tags + [t] == [t] && [t][1..] == [];
    } else {
      EncodeTagsAppend(tags[1..], t);
      assert (tags + [t])[1..] == tags[1..] + [t];
    }
  }

  /** PackedEventTagBuilder. */
  class TagBuilder {
    var buf: Bytes
    ghost var tags: seq<Tag>

    ghost predicate Valid()
      reads this
    {
      TagsFit(tags) && buf == EncodeTags(tags)
    }

    constructor ()
      ensures Valid() && tags == []
    {
      buf, tags := [], [];
    }

    method Add(tagKey: Byte, tagVal: Bytes) returns (r: Result<bool>)
      requires Valid()
      modifies this
      ensures Valid()
      ensures r.Err? <==> |tagVal| > 255
      ensures tags == if r.Ok? then old(tags) + [Tag(tagKey, tagVal)] else old(tags)
    {
      if |tagVal| > 255 { return Err("tagVal too long"); }
      EncodeTagsAppend(tags, Tag(tagKey, tagVal));
      buf := buf + [tagKey];
      buf := buf + [|tagVal|];
      buf := buf + tagVal;
      tags := tags + [Tag(tagKey, tagVal)];
      assert buf == old(buf) + EncodeTag(Tag(tagKey, tagVal));
      r := Ok(true);
    }
  }

  /** What `b` encodes, if anything: an encoding has one reading only. */
  lemma {:induction false} TagsUnique(x: seq<Tag>, y: seq<Tag>)
    requires TagsFit(x) && TagsFit(y) && EncodeTags(x) == EncodeTags(y)
    ensures x == y
  {
    if x != [] && y != [] {
      var a, b := EncodeTags(x), EncodeTags(y);
      assert a[0] == x[0].name && b[0] == y[0].name && a[1] == |x[0].value| && b[1] == |y[0].value|;
      assert a[2..2 + |x[0].value|] == x[0].value && b[2..2 + |y[0].value|] == y[0].value;
      assert a[2 + |x[0].value|..] == EncodeTags(x[1..]) && b[2 + |y[0].value|..] == EncodeTags(y[1..]);
      TagsUnique(x[1..], y[1..]);
      assert x == [x[0]] + x[1..] && y == [y[0]] + y[1..];
    }
  }

  /** The bytes before `b` are the encoding of the tags read so far. */
  ghost predicate ReadSoFar(all: Bytes, tags: seq<Tag>, b: Bytes) {
    TagsFit(tags) && all == EncodeTags(tags) + b
  }

  /** An encoding of more tags starts with that of the first ones. */
  lemma {:induction false} RestIsEncoded(tags: seq<Tag>, b: Bytes, whole: seq<Tag>)
    requires TagsFit(tags) && TagsFit(whole) && EncodeTags(whole) == EncodeTags(tags) + b
    ensures exists rest :: TagsFit(rest) && b == EncodeTags(rest)
    decreases |tags|
  {
    if tags == [] {
      assert b == EncodeTags(whole);
    } else {
      var a, c := EncodeTags(whole), EncodeTags(tags) + b;
      assert whole != [];
      assert a[1] == |whole[0].value| && c[1] == |tags[0].value|;
      assert a[2 + |whole[0].value|..] == EncodeTags(whole[1..]);
      assert c[2 + |tags[0].value|..] == EncodeTags(tags[1..]) + b;
      RestIsEncoded(tags[1..], b, whole[1..]);
    }
  }

  /** The first tag of a non-empty encoding fits. */
  lemma FirstTagFits(b: Bytes, rest: seq<Tag>)
    requires b != [] && TagsFit(rest) && b == EncodeTags(rest)
    ensures |b| >= 2 && 2 + b[1] <= |b|
  {
  }

  lemma ReadOne(all: Bytes, tags: seq<Tag>, b: Bytes)
    requires ReadSoFar(all, tags, b) && |b| >= 2 && 2 + b[1] <= |b|
    ensures ReadSoFar(all, tags + [Tag(b[0], b[2..2 + b[1]])], b[2 + b[1]..])
  {
    var t := Tag(b[0], b[2..2 + b[1]]);
    EncodeTagsAppend(tags, t);
    assert b == EncodeTag(t) + b[2 + b[1]..];
    assert all == EncodeTags(tags) + EncodeTag(t) + b[2 + b[1]..];
  }

  /** What the callback of foreachTag is given for the first tag of `b`: a tag that runs
      over the end is clipped, and a lone byte is no tag at all. */
  function CalledFor(b: Bytes): (r: seq<Tag>)
    requires b != []
  {
    if |b| == 1 then [] else [Tag(b[0], b[2..if 2 + b[1] <= |b| then 2 + b[1] else |b|])]
  }

  /** The calls made up to the one for the first tag of `b`, which may be clipped. */
  ghost predicate CalledUpTo(all: Bytes, called: seq<Tag>, b: Bytes) {
    exists tags :: ReadSoFar(all, tags, b) && b != [] && called == tags + CalledFor(b)
  }

  /** The callback has gone on after each of the calls. */
  predicate WentOn(goesOn: seq<Tag> -> bool, called: seq<Tag>) {
    forall k :: 0 < k <= |called| ==> goesOn(called[..k])
  }

  /** How a walk over the tags ends: at the end of the buffer, because the callback did
      not go on, or in an exception. */
  datatype Walk = Finished | CutShort | Failed(reason: string)

  /** PackedEventView::foreachTag. The callback decides by what it has been given so far
      whether to go on. If it always does, the calls are exactly the list of tags that the
      bytes encode, or there is no such list and foreachTag throws, after the call for a
      tag that runs over the end of the buffer. Otherwise the call after which it does
      not go on is the last one. */
  method ForeachTag(buf: Bytes, goesOn: seq<Tag> -> bool) returns (r: Walk, called: seq<Tag>)
    requires |buf| >= HEADER
    ensures r.Finished? ==> TagsFit(called) && EncodeTags(called) == buf[HEADER..] && WentOn(goesOn, called)
    ensures r.CutShort? ==> called != [] && !goesOn(called) && WentOn(goesOn, called[..|called| - 1])
    ensures r.CutShort? ==> exists b :: CalledUpTo(buf[HEADER..], called, b) && |b| >= 2
    ensures r.Failed? ==> WentOn(goesOn, called) && exists b :: CalledUpTo(buf[HEADER..], called, b) && (|b| < 2 || 2 + b[1] > |b|)
    ensures r.Failed? ==> forall tags :: TagsFit(tags) ==> EncodeTags(tags) != buf[HEADER..]
  {
    var b: Bytes := buf[HEADER..];
    called := [];
    while |b| > 0
      invariant ReadSoFar(buf[HEADER..], called, b) && WentOn(goesOn, called)
      decreases |b|
    {
      ghost var before := called;
      called := called + CalledFor(b);
      assert CalledUpTo(buf[HEADER..], called, b);
      assert before == called[..|before|] && forall k :: 0 < k <= |before| ==> called[..k] == before[..k];
      if |b| == 1 {
        NotTags(buf[HEADER..], before, b);
        return Failed("out of range"), called;
      }
      assert called[..|called|] == called;
      if !goesOn(called) { return CutShort, called; }
      if 2 + b[1] > |b| {
        NotTags(buf[HEADER..], before, b);
        return Failed("out of range"), called;
      }
      ReadOne(buf[HEADER..], before, b);
      b := b[2 + b[1]..];
    }
    r := Finished;
  }

  lemma NotTags(all: Bytes, tags: seq<Tag>, b: Bytes)
    requires ReadSoFar(all, tags, b) && b != [] && (|b| < 2 || 2 + b[1] > |b|)
    ensures forall whole :: TagsFit(whole) ==> EncodeTags(whole) != all
  {
    forall whole | TagsFit(whole) ensures EncodeTags(whole) != all {
      if EncodeTags(whole) == all {
        RestIsEncoded(tags, b, whole);
        var rest :| TagsFit(rest) && b == EncodeTags(rest);
        FirstTagFits(b, rest);
      }
    }
  }

  // ---------------------------------------------------------------------------
  // Events

  predicate Fits(e: Event) {
    && |e.id| == 32 && |e.pubkey| == 32 && TagsFit(e.tags)
    && e.createdAt <= MAX_U64 && e.kind <= MAX_U64 && e.expiration <= MAX_U64
  }

  function Pack(e: Event): (buf: Bytes)
    requires TagsFit(e.tags)
  {
    e.id + e.pubkey + Encode(e.createdAt, 8) + Encode(e.kind, 8) + Encode(e.expiration, 8) + EncodeTags(e.tags)
  }

  /** PackedEventBuilder. */
  method Build(id: Bytes, pubkey: Bytes, createdAt: nat, kind: nat, expiration: nat, tagBuilder: TagBuilder) returns (r: Result<Bytes>)
    requires tagBuilder.Valid() && createdAt <= MAX_U64 && kind <= MAX_U64 && expiration <= MAX_U64
    ensures r.Ok? <==> |id| == 32 && |pubkey| == 32
    ensures r.Ok? ==> r.value == Pack(Event(id, pubkey, createdAt, kind, expiration, tagBuilder.tags)) && |r.value| >= HEADER
  {
    if |id| != 32 { return Err("unexpected id size"); }
    if |pubkey| != 32 { return Err("unexpected pubkey size"); }
    PowerIs();
    NumberRoundTrip(createdAt, 8);
    NumberRoundTrip(kind, 8);
    NumberRoundTrip(expiration, 8);
    var buf := id;
    buf := buf + pubkey;
    buf := buf + Encode(createdAt, 8);
    buf := buf + Encode(kind, 8);
    buf := buf + Encode(expiration, 8);
    buf := buf + tagBuilder.buf;
    r := Ok(buf);
  }

  /** The PackedEventView constructor and its accessors: they read the header, whatever
      follows it. */
  method ViewHeader(buf: Bytes) returns (r: Result<Event>)
    ensures r.Ok? <==> |buf| >= HEADER
    ensures r.Ok? ==> Fits(r.value) && r.value.tags == [] && Pack(r.value) == buf[..HEADER]
  {
    if |buf| < HEADER { return Err("PackedEventView too short"); }
    var e := Event(buf[..32], buf[32..64], Decode(buf[64..72]), Decode(buf[72..80]), Decode(buf[80..88]), []);
    assert buf[..HEADER][64..72] == buf[64..72] && buf[..HEADER][72..80] == buf[72..80] && buf[..HEADER][80..88] == buf[80..88];
    ViewIsExact(buf[..HEADER], e);
    r := Ok(e);
  }

  lemma WithTags(buf: Bytes, e: Event, tags: seq<Tag>)
    requires |buf| >= HEADER && Fits(e) && e.tags == [] && Pack(e) == buf[..HEADER]
    requires TagsFit(tags) && EncodeTags(tags) == buf[HEADER..]
    ensures Fits(e.(tags := tags)) && Pack(e.(tags := tags)) == buf
  {
    assert Pack(e) + EncodeTags(tags) == Pack(e.(tags := tags));
    assert buf[..HEADER] + buf[HEADER..] == buf;
  }

  /** The accessors and the tags together. */
  method View(buf: Bytes) returns (r: Result<Event>)
    ensures r.Ok? ==> Fits(r.value) && Pack(r.value) == buf
    ensures r.Err? ==> forall e: Event :: Fits(e) ==> Pack(e) != buf
  {
    var header := ViewHeader(buf);
    if header.Err? {
      TooShort(buf);
      return header;
    }
    var walked, tags := ForeachTag(buf, _ => true);
    if walked.Failed? {
      NoTags(buf);
      return Err(walked.reason);
    }
    assert walked.Finished?;
    WithTags(buf, header.value, tags);
    r := Ok(header.value.(tags := tags));
  }

  lemma PackParts(e: Event)
    requires Fits(e)
    ensures
      var buf := Pack(e);
      && |buf| >= HEADER && buf[..32] == e.id && buf[32..64] == e.pubkey
      && buf[64..72] == Encode(e.createdAt, 8) && buf[72..80] == Encode(e.kind, 8) && buf[80..88] == Encode(e.expiration, 8)
      && buf[HEADER..] == EncodeTags(e.tags)
  {
    PowerIs();
    NumberRoundTrip(e.createdAt, 8);
    NumberRoundTrip(e.kind, 8);
    NumberRoundTrip(e.expiration, 8);
    Slices(e.id, e.pubkey, Encode(e.createdAt, 8), Encode(e.kind, 8), Encode(e.expiration, 8), EncodeTags(e.tags));
  }

  lemma Slices(a: Bytes, b: Bytes, c: Bytes, d: Bytes, e: Bytes, rest: Bytes)
    requires |a| == 32 && |b| == 32 && |c| == 8 && |d| == 8 && |e| == 8
    ensures
      var buf := a + b + c + d + e + rest;
      && |buf| >= HEADER && buf[..32] == a && buf[32..64] == b && buf[64..72] == c && buf[72..80] == d && buf[80..88] == e
      && buf[HEADER..] == rest
  {
  }

  lemma TooShort(buf: Bytes)
    requires |buf| < HEADER
    ensures forall e: Event :: Fits(e) ==> Pack(e) != buf
  {
    forall e: Event | Fits(e) ensures Pack(e) != buf { PackParts(e); }
  }

  lemma NoTags(buf: Bytes)
    requires |buf| >= HEADER && forall tags :: TagsFit(tags) ==> EncodeTags(tags) != buf[HEADER..]
    ensures forall e: Event :: Fits(e) ==> Pack(e) != buf
  {
    forall e: Event | Fits(e) ensures Pack(e) != buf { PackParts(e); }
  }

  lemma ViewIsExact(buf: Bytes, e: Event)
    requires |buf| >= HEADER && TagsFit(e.tags) && EncodeTags(e.tags) == buf[HEADER..]
    requires e.id == buf[..32] && e.pubkey == buf[32..64]
    requires e.createdAt == Decode(buf[64..72]) && e.kind == Decode(buf[72..80]) && e.expiration == Decode(buf[80..88])
    ensures Fits(e) && Pack(e) == buf
  {
    PowerIs();
    Number64(buf[64..72]);
    Number64(buf[72..80]);
    Number64(buf[80..88]);
    Pieces(buf);
  }

  lemma Number64(b: Bytes)
    requires |b| == 8
    ensures Decode(b) <= MAX_U64 && Encode(Decode(b), 8) == b
  {
    PowerIs();
    NumberUnique(b);
  }

  lemma Pieces(buf: Bytes)
    requires |buf| >= HEADER
    ensures buf == buf[..32] + buf[32..64] + buf[64..72] + buf[72..80] + buf[80..88] + buf[HEADER..]
  {
    assert buf[..64] == buf[..32] + buf[32..64];
    assert buf[..72] == buf[..64] + buf[64..72];
    assert buf[..80] == buf[..72] + buf[72..80];
    assert buf[..88] == buf[..80] + buf[80..88];
    assert buf == buf[..88] + buf[88..];
  }

  /** Packing loses nothing: the view of a packed event is that event. */
  lemma PackRoundTrip(e: Event, r: Result<Event>)
    requires Fits(e)
    requires r.Ok? ==> Fits(r.value) && Pack(r.value) == Pack(e)
    requires r.Err? ==> forall x: Event :: Fits(x) ==> Pack(x) != Pack(e)
    ensures r == Ok(e)
  {
    if r.Ok? { PackInjective(e, r.value); }
  }

  lemma PackInjective(x: Event, y: Event)
    requires Fits(x) && Fits(y) && Pack(x) == Pack(y)
    ensures x == y
  {
    PackParts(x);
    PackParts(y);
    PowerIs();
    NumberRoundTrip(x.createdAt, 8);
    NumberRoundTrip(y.createdAt, 8);
    NumberRoundTrip(x.kind, 8);
    NumberRoundTrip(y.kind, 8);
    NumberRoundTrip(x.expiration, 8);
    NumberRoundTrip(y.expiration, 8);
    TagsUnique(x.tags, y.tags);
  }
}
