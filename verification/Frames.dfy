/** EVENT messages for many subscribers, built in one buffer
    (src/apps/relay/RelayWebsocket.cpp, src/apps/relay/RelaySender.h). */
module Frames {
  import opened ByteStrings

  const MAX_SUBID_SIZE := 64

  /** `["EVENT","` */
  const PREFIX: Bytes := [91, 34, 69, 86, 69, 78, 84, 34, 44, 34]

  /** `",` */
  const COMMA: Bytes := [34, 44]

  /** `]` */
  const BRACKET: Bytes := [93]

  /** The message for one subscriber, built from scratch as sendEvent does. */
  function EventMessage(subId: Bytes, evJson: Bytes): (m: Bytes) {
    PREFIX + subId + COMMA + evJson + BRACKET
  }

  lemma MessageIs(subId: Bytes, evJson: Bytes)
    ensures EventMessage(subId, evJson) ==
      ['[' as int, '"' as int, 'E' as int, 'V' as int, 'E' as int, 'N' as int, 'T' as int, '"' as int, ',' as int, '"' as int]
      + subId + ['"' as int, ',' as int] + evJson + [']' as int]
  {
  }

  /** memcpy into the buffer. */
  method Copy(buf: array<Byte>, at: nat, text: Bytes)
    requires at + |text| <= buf.Length
    modifies buf
    ensures buf[..] == old(buf[..at]) + text + old(buf[at + |text|..])
  {
    for i := 0 to |text|
      invariant forall j :: 0 <= j < buf.Length ==> buf[j] == if at <= j < at + i then text[j - at] else old(buf[j])
    {
      buf[at + i] := text[i];
    }
  }

  /** The buffer holds the part that all messages share after the place for the
      longest prefix. */
  ghost predicate Ready(buf: array<Byte>, evJson: Bytes)
    reads buf
  {
    buf.Length == 10 + MAX_SUBID_SIZE + 2 + |evJson| + 1 && buf[10 + MAX_SUBID_SIZE..] == COMMA + evJson + BRACKET
  }

  /** resize and append: the shared part is written once. What is in front of it is
      whatever was in the buffer. */
  method Prepare(tempBuf: Bytes, evJson: Bytes) returns (buf: array<Byte>)
    ensures fresh(buf) && Ready(buf, evJson)
  {
    var n := 10 + MAX_SUBID_SIZE;
    var suffix := COMMA + evJson + BRACKET;
    buf := new Byte[n + |suffix|](i requires 0 <= i => if i < |tempBuf| then tempBuf[i] else 0);
    Copy(buf, n, suffix);
  }

  /** One recipient: the prefix is written so that it ends where the shared part
      begins. */
  method FrameOne(buf: array<Byte>, subId: Bytes, evJson: Bytes) returns (payload: Bytes)
    requires Ready(buf, evJson) && |subId| <= MAX_SUBID_SIZE
    modifies buf
    ensures Ready(buf, evJson)
    ensures payload == EventMessage(subId, evJson)
  {
    var p := MAX_SUBID_SIZE - |subId|;
    Copy(buf, p, PREFIX);
    Copy(buf, p + 10, subId);
    payload := buf[p..p + 13 + |subId| + |evJson|];
    assert buf[p..p + 10] == PREFIX;
    assert buf[p + 10..10 + MAX_SUBID_SIZE] == subId;
    assert buf[p..] == buf[p..p + 10] + buf[p + 10..10 + MAX_SUBID_SIZE] + buf[10 + MAX_SUBID_SIZE..];
  }

  /** SendEventToBatch: each recipient gets the bytes it would have got alone, in
      whatever order they come. */
  method SendEventToBatch(tempBuf: Bytes, subIds: seq<Bytes>, evJson: Bytes) returns (payloads: seq<Bytes>)
    requires forall i :: 0 <= i < |subIds| ==> |subIds[i]| <= MAX_SUBID_SIZE
    ensures |payloads| == |subIds|
    ensures forall i :: 0 <= i < |subIds| ==> payloads[i] == EventMessage(subIds[i], evJson)
  {
    var buf := Prepare(tempBuf, evJson);
    payloads := [];
    for i := 0 to |subIds|
      invariant Ready(buf, evJson) && |payloads| == i
      invariant forall k :: 0 <= k < i ==> payloads[k] == EventMessage(subIds[k], evJson)
    {
      var payload := FrameOne(buf, subIds[i], evJson);
      payloads := payloads + [payload];
    }
  }
}
