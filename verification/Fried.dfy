/** Export and import with the packed event embedded in the JSON line
    (src/apps/dbutils/cmd_export.cpp, src/apps/dbutils/cmd_import.cpp). */
module Fried {
  import opened ByteStrings
  import opened Results
  import opened Texts

  /** `,"fried":"` */
  const MARK: Bytes := [44, 34, 102, 114, 105, 101, 100, 34, 58, 34]

  /** `"}` */
  const CLOSE: Bytes := [QUOTE, BRACE]

  /** What a line says: the packed event and the JSON text. */
  datatype Parsed = Parsed(packed: Bytes, json: Bytes)

  /** The fried line of an event, without the newline. */
  function Fry(json: Bytes, packed: Bytes): (line: Bytes)
    requires json != []
  {
    json[..|json| - 1] + MARK + ToHex(packed) + CLOSE
  }

  /** The export of one row. */
  method ExportFried(json: Bytes, packed: Bytes) returns (o: Bytes)
    requires json != []
    ensures o == Fry(json, packed) + [10]
    ensures o == json[..|json| - 1]
      + [',' as int, '"' as int, 'f' as int, 'r' as int, 'i' as int, 'e' as int, 'd' as int, '"' as int, ':' as int, '"' as int]
      + ToHex(packed) + ['"' as int, '}' as int, '\n' as int]
  {
    o := json;
    o := o[..|o| - 1];
    o := o + MARK;
    o := o + ToHex(packed);
    o := o + CLOSE + [10];
  }

  predicate EndsWith(text: Bytes, suffix: Bytes) {
    |suffix| <= |text| && text[|text| - |suffix|..] == suffix
  }

  /** `line` is `body`, the mark, `hex` and the closing characters, and there is no
      quote in `hex`. */
  ghost predicate Splits(line: Bytes, body: Bytes, hex: Bytes) {
    line == body + MARK + hex + CLOSE && QUOTE !in hex
  }

  /** The mark is at the last quote, so a line splits in one way only. */
  lemma SplitsOnce(line: Bytes, body: Bytes, hex: Bytes, i: nat)
    requires Splits(line, body, hex) && i < |line| - 2
    requires line[i] == QUOTE || i == 0
    requires forall j :: i < j < |line| - 2 ==> line[j] != QUOTE
    ensures i == |body| + 9 && line[..i + 1] == body + MARK && line[i + 1..|line| - 2] == hex
  {
    var q := |body| + 9;
    assert line[q] == MARK[9] == QUOTE;
    assert forall j :: q < j < |line| - 2 ==> line[j] == hex[j - q - 1];
  }

  /** The error cases in the order they are found, and the result. */
  ghost predicate ParseOk(line: Bytes, r: Result<Parsed>) {
    match r
    case Ok(p) =>
      && |line| >= 64 && p.json != [] && p.json[|p.json| - 1] == BRACE
      && exists hex :: Splits(line, p.json[..|p.json| - 1], hex) && FromHex(hex) == Some(p.packed)
    case Err(_) =>
      |line| < 64 || forall body, hex :: Splits(line, body, hex) ==> FromHex(hex).None?
  }

  /** parseFried. It succeeds exactly on lines of the form an export has, and finds the
      two parts. */
  method ParseFried(line: Bytes) returns (r: Result<Parsed>)
    ensures ParseOk(line, r)
  {
    if |line| < 64 { return Err("fried too small"); }
    if !EndsWith(line, CLOSE) {
      NotClosed(line);
      return Err("fried parse error");
    }
    var i := |line| - 3;
    while i > 0 && line[i] != QUOTE
      invariant 0 <= i <= |line| - 3
      invariant forall j :: i < j < |line| - 2 ==> line[j] != QUOTE
    {
      i := i - 1;
    }
    if !EndsWith(line[..i + 1], MARK) {
      NotMarked(line, i);
      return Err("fried parse error");
    }
    var hex := line[i + 1..|line| - 2];
    SplitFound(line, i);
    var packed := FromHex(hex);
    if packed.None? {
      NotHex(line, i);
      return Err("from_hex");
    }
    var edited := line[i - 9 := BRACE];
    edited := edited[..i - 8];
    assert edited[..|edited| - 1] == line[..i - 9];
    r := Ok(Parsed(packed.value, edited));
  }

  lemma SplitsClosed(line: Bytes, body: Bytes, hex: Bytes)
    requires Splits(line, body, hex)
    ensures EndsWith(line, CLOSE)
  {
    assert line[|line| - 2..] == CLOSE;
  }

  lemma SplitsMarked(line: Bytes, body: Bytes, hex: Bytes, i: nat)
    requires Splits(line, body, hex) && i < |line| - 2 && (line[i] == QUOTE || i == 0)
    requires forall j :: i < j < |line| - 2 ==> line[j] != QUOTE
    ensures EndsWith(line[..i + 1], MARK)
  {
    SplitsOnce(line, body, hex, i);
    assert (body + MARK)[|body|..] == MARK;
  }

  lemma NotClosed(line: Bytes)
    requires !EndsWith(line, CLOSE)
    ensures forall body, hex :: !Splits(line, body, hex)
  {
    forall body, hex ensures !Splits(line, body, hex) {
      if Splits(line, body, hex) { SplitsClosed(line, body, hex); }
    }
  }

  lemma NotMarked(line: Bytes, i: nat)
    requires |line| >= 64 && i < |line| - 2 && (line[i] == QUOTE || i == 0) && !EndsWith(line[..i + 1], MARK)
    requires forall j :: i < j < |line| - 2 ==> line[j] != QUOTE
    ensures forall body, hex :: !Splits(line, body, hex)
  {
    forall body, hex ensures !Splits(line, body, hex) {
      if Splits(line, body, hex) { SplitsMarked(line, body, hex, i); }
    }
  }

  lemma SplitFound(line: Bytes, i: nat)
    requires i < |line| - 2 && EndsWith(line, CLOSE) && EndsWith(line[..i + 1], MARK)
    requires forall j :: i < j < |line| - 2 ==> line[j] != QUOTE
    ensures i >= 9 && Splits(line, line[..i - 9], line[i + 1..|line| - 2])
  {
    assert line == line[..i + 1] + line[i + 1..|line| - 2] + line[|line| - 2..];
    assert line[..i + 1] == line[..i - 9] + line[..i + 1][i - 9..];
  }

  lemma NotHex(line: Bytes, i: nat)
    requires i < |line| - 2 && (line[i] == QUOTE || i == 0) && FromHex(line[i + 1..|line| - 2]).None?
    requires forall j :: i < j < |line| - 2 ==> line[j] != QUOTE
    ensures forall body, hex :: Splits(line, body, hex) ==> FromHex(hex).None?
  {
    forall body, hex | Splits(line, body, hex) ensures FromHex(hex).None? { SplitsOnce(line, body, hex, i); }
  }

  // ---------------------------------------------------------------------------
  // The round trip

  lemma FrySplits(json: Bytes, packed: Bytes)
    requires json != []
    ensures Splits(Fry(json, packed), json[..|json| - 1], ToHex(packed))
    ensures |Fry(json, packed)| == |json| + 11 + 2 * |packed|
  {
    HexRoundTrip(packed);
    HexOnly(ToHex(packed));
  }

  /** Two splits of one line agree. */
  lemma SplitsAgree(line: Bytes, body: Bytes, hex: Bytes, body': Bytes, hex': Bytes)
    requires Splits(line, body, hex) && Splits(line, body', hex')
    ensures body == body' && hex == hex'
  {
    var q := |body'| + 9;
    assert line[q] == MARK[9] == QUOTE;
    assert forall j :: q < j < |line| - 2 ==> line[j] == hex'[j - q - 1];
    SplitsOnce(line, body, hex, q);
    assert line[..q + 1] == body' + MARK && line[q + 1..|line| - 2] == hex';
    assert body == (body + MARK)[..|body|] && body' == (body' + MARK)[..|body'|];
  }

  /** Importing an exported line gives back the event: always the packed bytes, and the
      JSON text exactly if it ends in a brace. */
  lemma RoundTrip(json: Bytes, packed: Bytes, r: Result<Parsed>)
    requires json != [] && ParseOk(Fry(json, packed), r)
    ensures r.Ok? <==> |json| + 2 * |packed| >= 53
    ensures r.Ok? ==> r.value.packed == packed
    ensures r.Ok? ==> (r.value.json == json <==> json[|json| - 1] == BRACE)
  {
    var line := Fry(json, packed);
    FrySplits(json, packed);
    HexRoundTrip(packed);
    if r.Ok? {
      var p := r.value;
      var hex :| Splits(line, p.json[..|p.json| - 1], hex) && FromHex(hex) == Some(p.packed);
      SplitsAgree(line, json[..|json| - 1], ToHex(packed), p.json[..|p.json| - 1], hex);
      assert p.json == p.json[..|p.json| - 1] + [BRACE];
      assert json == json[..|json| - 1] + [json[|json| - 1]];
    }
  }

  /** Any packed event that can be stored, with any JSON object. */
  lemma StoredRoundTrip(json: Bytes, packed: Bytes, r: Result<Parsed>)
    requires json != [] && json[|json| - 1] == BRACE && |packed| >= 88 && ParseOk(Fry(json, packed), r)
    ensures r == Ok(Parsed(packed, json))
  {
    RoundTrip(json, packed, r);
  }
}
