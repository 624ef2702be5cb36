/** Bytes in hexadecimal and numbers in decimal. The program takes these conversions
    from a library; they are given here as that library's callers rely on them. */
module Texts {
  import opened ByteStrings
  import opened Results
  import opened Events

  const QUOTE: Byte := 34
  const BRACE: Byte := 125

  function HexDigit(d: nat): (c: Byte)
    requires d < 16
  {
    if d < 10 then 48 + d else 87 + d
  }

  function DigitValue(c: Byte): (r: Option<nat>) {
    if 48 <= c <= 57 then Some(c - 48)
    else if 97 <= c <= 102 then Some(c - 87)
    else if 65 <= c <= 70 then Some(c - 55)
    else None
  }

  function ToHex(b: Bytes): (t: Bytes) {
    if b == [] then [] else [HexDigit(b[0] / 16), HexDigit(b[0] % 16)] + ToHex(b[1..])
  }

  function FromHex(t: Bytes): (r: Option<Bytes>) {
    if t == [] then Some([])
    else if |t| == 1 || DigitValue(t[0]).None? || DigitValue(t[1]).None? then None
    else
      var rest := FromHex(t[2..]);
      if rest.None? then None else Some([(DigitValue(t[0]).value * 16 + DigitValue(t[1]).value) % 256] + rest.value)
  }

  lemma {:induction false} HexRoundTrip(b: Bytes)
    ensures FromHex(ToHex(b)) == Some(b) && |ToHex(b)| == 2 * |b|
    ensures forall c :: c in ToHex(b) ==> '0' as int <= c <= '9' as int || 'a' as int <= c <= 'f' as int
  {
    if b != [] {
      HexRoundTrip(b[1..]);
      assert ToHex(b)[2..] == ToHex(b[1..]);
      assert DigitValue(HexDigit(b[0] / 16)) == Some(b[0] / 16) && DigitValue(HexDigit(b[0] % 16)) == Some(b[0] % 16);
      assert b == [b[0]] + b[1..];
    }
  }

  predicate IsHexDigit(c: Byte) {
    '0' as int <= c <= '9' as int || 'a' as int <= c <= 'f' as int || 'A' as int <= c <= 'F' as int
  }

  /** Exactly the strings of an even number of digits are accepted, in either case. */
  lemma {:induction false} HexReads(t: Bytes)
    ensures FromHex(t).Some? <==> |t| % 2 == 0 && forall c :: c in t ==> IsHexDigit(c)
    decreases |t|
  {
    if |t| >= 2 {
      HexReads(t[2..]);
      assert t == [t[0], t[1]] + t[2..];
      assert IsHexDigit(t[0]) <==> DigitValue(t[0]).Some?;
      assert IsHexDigit(t[1]) <==> DigitValue(t[1]).Some?;
    }
  }

  /** Only digits are accepted, two for each byte. */
  lemma {:induction false} HexOnly(t: Bytes)
    requires FromHex(t).Some?
    ensures |t| == 2 * |FromHex(t).value| && QUOTE !in t
  {
    if t != [] {
      HexOnly(t[2..]);
      assert t == [t[0], t[1]] + t[2..];
    }
  }

  /** The value of a string of decimal digits. */
  function Decimal(t: Bytes): (n: nat)
    requires forall i :: 0 <= i < |t| ==> 48 <= t[i] <= 57
  {
    if t == [] then 0 else 10 * Decimal(t[..|t| - 1]) + (t[|t| - 1] - 48)
  }

  function ParseUint64(t: Bytes): (r: Option<nat>)
  {
    if t != [] && (forall i :: 0 <= i < |t| ==> 48 <= t[i] <= 57) && Decimal(t) <= MAX_U64 then Some(Decimal(t)) else None
  }
}
