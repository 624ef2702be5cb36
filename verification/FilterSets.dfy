/** Filter sets (src/filters.h): the sorted, packed tables that a filter's
    string items are compiled into, and their first-byte-accelerated search. */
module FilterSets {
  import opened ByteStrings
  import opened Results

  const MAX_INDEXED_TAG_VAL_SIZE := 255

  predicate StrictlyIncreasing(s: seq<Bytes>) {
    forall i, j :: 0 <= i < j < |s| ==> Less(s[i], s[j])
  }

  predicate NonDecreasing(s: seq<Bytes>) {
    forall i, j :: 0 <= i < j < |s| ==> !Less(s[j], s[i])
  }

  function Concat(s: seq<Bytes>): (r: Bytes) {
    if s == [] then [] else Concat(s[..|s| - 1]) + s[|s| - 1]
  }

  /** One packed table entry; offset and size are a 16-bit and an 8-bit field. */
  datatype Item = Item(offset: nat, size: nat, firstByte: Byte)

  datatype FilterSetBytes = FilterSetBytes(items: seq<Item>, buf: Bytes) {
    predicate InBounds() {
      && |buf| <= 65535
      && forall i :: 0 <= i < |items| ==>
          && items[i].offset + items[i].size <= |buf|
          && items[i].size <= MAX_INDEXED_TAG_VAL_SIZE
    }

    function At(n: nat): (r: Bytes)
      requires InBounds() && n < |items|
    {
      buf[items[n].offset..items[n].offset + items[n].size]
    }

    function Contents(): (r: seq<Bytes>)
      requires InBounds()
      ensures |r| == |items|
    {
      seq(|items|, i requires 0 <= i < |items| => At(i))
    }

    predicate Valid() {
      && InBounds()
      && StrictlyIncreasing(Contents())
      && forall i :: 0 <= i < |items| && items[i].size > 0 ==> items[i].firstByte == At(i)[0]
    }
  }

  /** What the constructor keeps: the distinct inputs, sorted. */
  function InsertDistinct(x: Bytes, s: seq<Bytes>): (r: seq<Bytes>)
    requires StrictlyIncreasing(s)
    ensures StrictlyIncreasing(r)
    ensures forall y :: y in r <==> y == x || y in s
  {
    if s == [] then [x]
    else if x == s[0] then s
    else if Less(x, s[0]) then
      assert forall k :: 0 < k < |s| ==> Less(x, s[k]) by {
        forall k | 0 < k < |s| ensures Less(x, s[k]) { LessTransitive(x, s[0], s[k]); }
      }
      [x] + s
    else
      var t := InsertDistinct(x, s[1..]);
      assert forall y :: y in t ==> Less(s[0], y) by {
        LessTotal(x, s[0]);
        forall y | y in t ensures Less(s[0], y) {
          if y != x { var k :| 0 <= k < |s[1..]| && s[1..][k] == y; assert y == s[k + 1]; }
        }
      }
      [s[0]] + t
  }

  function SortedDistinct(arr: seq<Bytes>): (r: seq<Bytes>)
    ensures StrictlyIncreasing(r)
    ensures forall y :: y in r <==> y in arr
  {
    if arr == [] then [] else InsertDistinct(arr[0], SortedDistinct(arr[1..]))
  }

  lemma EmptyTogether(a: seq<Bytes>, b: seq<Bytes>)
    requires forall y :: y in a <==> y in b
    ensures a == [] <==> b == []
  {
    if a != [] { assert a[0] in b; }
    if b != [] { assert b[0] in a; }
  }

  /** A strictly increasing list is determined by its elements. */
  lemma {:induction false} StrictlyIncreasingUnique(a: seq<Bytes>, b: seq<Bytes>)
    requires StrictlyIncreasing(a) && StrictlyIncreasing(b)
    requires forall y :: y in a <==> y in b
    ensures a == b
    decreases |a|
  {
    EmptyTogether(a, b);
    if b != [] {
      assert b[0] in a;
      assert a[0] in b;
      var i :| 0 <= i < |b| && b[i] == a[0];
      var j :| 0 <= j < |a| && a[j] == b[0];
      if i > 0 && j > 0 { LessAsymmetric(a[0], b[0]); }
      assert a[0] == b[0];
      forall y ensures y in a[1..] <==> y in b[1..] {
        LessIrreflexive(a[0]);
        if y in a[1..] {
          var k :| 1 <= k < |a| && a[k] == y;
          assert y in b && y != b[0];
        }
        if y in b[1..] {
          var k :| 1 <= k < |b| && b[k] == y;
          assert y in a && y != a[0];
        }
      }
      StrictlyIncreasingUnique(a[1..], b[1..]);
      assert a == [a[0]] + a[1..] && b == [b[0]] + b[1..];
    }
  }

  /** `std::sort` on the decoded items: only its contract is used below. */
  method SortStrings(arr: seq<Bytes>) returns (r: seq<Bytes>)
    ensures NonDecreasing(r) && |r| == |arr|
    ensures forall y :: y in r <==> y in arr
  {
    r := [];
    for n := 0 to |arr|
      invariant NonDecreasing(r) && |r| == n
      invariant forall y :: y in r <==> y in arr[..n]
    {
      var x := arr[n];
      var k := |r|;
      while k > 0 && Less(x, r[k - 1])
        invariant 0 <= k <= |r|
        invariant forall i :: k <= i < |r| ==> Less(x, r[i])
      {
        k := k - 1;
      }
      forall i | 0 <= i < k ensures !Less(x, r[i]) {
        if Less(x, r[i]) && i < k - 1 {
          LessTotal(r[i], r[k - 1]);
          if Less(r[i], r[k - 1]) { LessTransitive(x, r[i], r[k - 1]); }
        }
      }
      forall i | k <= i < |r| ensures !Less(r[i], x) { LessAsymmetric(x, r[i]); }
      r := r[..k] + [x] + r[k..];
      assert arr[..n + 1] == arr[..n] + [x];
    }
    assert arr[..|arr|] == arr;
  }

  predicate SizesAllowed(arr: seq<Bytes>, minSize: nat, maxSize: nat) {
    forall i :: 0 <= i < |arr| ==> minSize <= |arr[i]| <= maxSize
  }

  /** The FilterSetBytes constructor. `arr` holds the items after hex decoding.
      The narrowing casts are written out, so that the contract shows they never
      lose anything when the constructor succeeds. */
  method Build(arr: seq<Bytes>, minSize: nat, maxSize: nat) returns (r: Result<FilterSetBytes>)
    ensures r.Ok? <==>
      && maxSize <= MAX_INDEXED_TAG_VAL_SIZE
      && SizesAllowed(arr, minSize, maxSize)
      && |Concat(SortedDistinct(arr))| <= 65535
    ensures r.Ok? ==> r.value.Valid() && r.value.Contents() == SortedDistinct(arr)
  {
    if maxSize > MAX_INDEXED_TAG_VAL_SIZE { return Err("maxSize bigger than max indexed tag size"); }
    var allowed := CheckSizes(arr, minSize, maxSize);
    if !allowed { return Err("filter item too small or too large"); }
    var sorted := SortStrings(arr);
    assert forall y :: y in sorted ==> |y| <= MAX_INDEXED_TAG_VAL_SIZE;
    var items, buf := PackItems(sorted);
    SortedUnique(arr, sorted);
    if |buf| > 65535 { return Err("total filter items too large"); }
    BuiltOk(items, buf, SortedDistinct(arr));
    r := Ok(FilterSetBytes(items, buf));
  }

  /** The size checks of the first loop. */
  method CheckSizes(arr: seq<Bytes>, minSize: nat, maxSize: nat) returns (ok: bool)
    ensures ok <==> SizesAllowed(arr, minSize, maxSize)
  {
    for i := 0 to |arr|
      invariant forall k :: 0 <= k < i ==> minSize <= |arr[k]| <= maxSize
    {
      if |arr[i]| < minSize { return false; }
      if |arr[i]| > maxSize { return false; }
    }
    return true;
  }

  lemma BuiltOk(items: seq<Item>, buf: Bytes, list: seq<Bytes>)
    requires Decodes(items, buf, list) && StrictlyIncreasing(list) && |buf| <= 65535
    ensures FilterSetBytes(items, buf).Valid() && FilterSetBytes(items, buf).Contents() == list
  {
    var s := FilterSetBytes(items, buf);
    assert s.InBounds();
    assert s.Contents() == list;
  }

  /** Two lists of the same strings have the same distinct strings. */
  lemma SortedUnique(a: seq<Bytes>, b: seq<Bytes>)
    requires forall y :: y in a <==> y in b
    ensures SortedDistinct(a) == SortedDistinct(b)
  {
    StrictlyIncreasingUnique(SortedDistinct(a), SortedDistinct(b));
  }

  /** The loop over the sorted items, which skips repetitions. */
  method PackItems(sorted: seq<Bytes>) returns (items: seq<Item>, buf: Bytes)
    requires NonDecreasing(sorted) && forall y :: y in sorted ==> |y| <= MAX_INDEXED_TAG_VAL_SIZE
    ensures buf == Concat(SortedDistinct(sorted))
    ensures |buf| <= 65535 ==> Decodes(items, buf, SortedDistinct(sorted))
  {
    items, buf := [], [];
    ghost var kept: seq<Bytes> := [];
    for i := 0 to |sorted|
      invariant Kept(kept, sorted, i) && buf == Concat(kept)
      invariant |buf| <= 65535 ==> Decodes(items, buf, kept)
    {
      var item := sorted[i];
      KeptNext(kept, sorted, i);
      if i > 0 && item == sorted[i - 1] { continue; }
      var first := if item == [] then 0 else item[0];
      DecodesExtend(items, buf, kept, item, first);
      items := items + [Item(|buf| % 65536, |item| % 256, first)];
      buf := buf + item;
      ConcatAppend(kept, item);
      kept := kept + [item];
    }
    assert sorted[..|sorted|] == sorted;
    StrictlyIncreasingUnique(kept, SortedDistinct(sorted));
  }

  lemma ConcatAppend(list: seq<Bytes>, x: Bytes)
    ensures Concat(list + [x]) == Concat(list) + x
  {
    assert (list + [x])[..|list|] == list;
  }

  /** The distinct items among the first `i`, in order. */
  ghost predicate Kept(kept: seq<Bytes>, sorted: seq<Bytes>, i: nat)
    requires i <= |sorted|
  {
    && (i == 0 <==> kept == []) && (i > 0 ==> kept[|kept| - 1] == sorted[i - 1])
    && StrictlyIncreasing(kept)
    && forall y :: y in kept <==> y in sorted[..i]
  }

  lemma KeptNext(kept: seq<Bytes>, sorted: seq<Bytes>, i: nat)
    requires i < |sorted| && NonDecreasing(sorted) && Kept(kept, sorted, i)
    ensures Kept(if i > 0 && sorted[i] == sorted[i - 1] then kept else kept + [sorted[i]], sorted, i + 1)
  {
    var item := sorted[i];
    assert sorted[..i + 1] == sorted[..i] + [item];
    if i > 0 && item != sorted[i - 1] {
      forall k | 0 <= k < |kept| ensures Less(kept[k], item) {
        LessTotal(kept[|kept| - 1], item);
        if k < |kept| - 1 { LessTransitive(kept[k], kept[|kept| - 1], item); }
      }
    }
  }

  /** The packed table `items` over `buf` spells out the list `kept`. */
  ghost predicate Decodes(items: seq<Item>, buf: Bytes, kept: seq<Bytes>) {
    && |items| == |kept|
    && forall k :: 0 <= k < |items| ==>
        && items[k].offset + items[k].size <= |buf|
        && items[k].size <= MAX_INDEXED_TAG_VAL_SIZE
        && buf[items[k].offset..items[k].offset + items[k].size] == kept[k]
        && (items[k].size > 0 ==> items[k].firstByte == kept[k][0])
  }

  /** Appending one more string keeps every earlier slice where it was, and the
      narrowing casts of the new entry are exact while the buffer still fits. */
  lemma DecodesExtend(items: seq<Item>, buf: Bytes, kept: seq<Bytes>, item: Bytes, first: Byte)
    requires |item| <= MAX_INDEXED_TAG_VAL_SIZE && (item != [] ==> first == item[0])
    requires |buf| <= 65535 ==> Decodes(items, buf, kept)
    ensures |buf + item| <= 65535 ==>
      Decodes(items + [Item(|buf| % 65536, |item| % 256, first)], buf + item, kept + [item])
  {
    if |buf + item| <= 65535 {
      var all := items + [Item(|buf| % 65536, |item| % 256, first)];
      forall k | 0 <= k < |all|
        ensures
          && all[k].offset + all[k].size <= |buf + item|
          && (buf + item)[all[k].offset..all[k].offset + all[k].size] == (kept + [item])[k]
      {
        if k < |items| {
          assert (buf + item)[all[k].offset..all[k].offset + all[k].size] == buf[all[k].offset..all[k].offset + all[k].size];
        }
      }
    }
  }

  /** The upper-bound search of FilterSetBytes::doesMatch, first byte first. */
  method DoesMatch(s: FilterSetBytes, candidate: Bytes) returns (r: bool)
    requires s.Valid()
    ensures r <==> candidate in s.Contents()
  {
    var first, count := 0, |s.items|;
    while count > 0
      invariant 0 <= first && 0 <= count && first + count <= |s.items|
      invariant Bounds(s.Contents(), candidate, first, first + count)
    {
      var step := count / 2;
      var curr := first + step;
      var below := if candidate != [] && s.items[curr].size > 0 && candidate[0] != s.items[curr].firstByte
                   then candidate[0] < s.items[curr].firstByte
                   else Less(candidate, s.At(curr));
      assert below == Less(candidate, s.At(curr));
      if !below {
        NotBelow(s.Contents(), candidate, first, curr, first + count);
        first, count := curr + 1, count - (step + 1);
      } else {
        Below(s.Contents(), candidate, first, curr, first + count);
        count := step;
      }
    }
    r := first != 0 && candidate == s.At(first - 1);
    FoundAt(s.Contents(), candidate, first);
  }

  /** The strings before `first` are not above the candidate, those from `last` on are. */
  ghost predicate Bounds(list: seq<Bytes>, candidate: Bytes, first: nat, last: nat) {
    && first <= last <= |list|
    && (forall i :: 0 <= i < first ==> !Less(candidate, list[i]))
    && (forall i :: last <= i < |list| ==> Less(candidate, list[i]))
  }

  lemma NotBelow(list: seq<Bytes>, candidate: Bytes, first: nat, curr: nat, last: nat)
    requires StrictlyIncreasing(list) && Bounds(list, candidate, first, last) && first <= curr < last && !Less(candidate, list[curr])
    ensures Bounds(list, candidate, curr + 1, last)
  {
    forall i | first <= i < curr ensures !Less(candidate, list[i]) {
      if Less(candidate, list[i]) { LessTransitive(candidate, list[i], list[curr]); }
    }
  }

  lemma Below(list: seq<Bytes>, candidate: Bytes, first: nat, curr: nat, last: nat)
    requires StrictlyIncreasing(list) && Bounds(list, candidate, first, last) && first <= curr < last && Less(candidate, list[curr])
    ensures Bounds(list, candidate, first, curr)
  {
    forall i | curr < i < last ensures Less(candidate, list[i]) { LessTransitive(candidate, list[curr], list[i]); }
  }

  /** The candidate is in the list only if it is the last string not above it. */
  lemma FoundAt(list: seq<Bytes>, candidate: Bytes, n: nat)
    requires StrictlyIncreasing(list) && Bounds(list, candidate, n, n)
    ensures candidate in list <==> n > 0 && list[n - 1] == candidate
  {
    if candidate in list {
      var i :| 0 <= i < |list| && list[i] == candidate;
      LessIrreflexive(candidate);
      assert i < n && !Less(candidate, list[n - 1]);
    }
  }
}
