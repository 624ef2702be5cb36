/** Nostr events as the store sees them: the indexed part of an event, in the
    shape of a packed event (src/PackedEvent.h), and its kind ranges
    (src/events.h). */
module Events {
  import opened ByteStrings
  import opened Results

  const TAG_D: Byte := 100
  const TAG_E: Byte := 101
  const TAG_P: Byte := 112

  const MAX_U64 := 0xFFFF_FFFF_FFFF_FFFF

  datatype Tag = Tag(name: Byte, value: Bytes)

  datatype Event = Event(
    id: Bytes,
    pubkey: Bytes,
    createdAt: nat,
    kind: nat,
    expiration: nat,
    tags: seq<Tag>)

  /** The Event table: local event id (levId) to event. */
  type Table = map<nat, Event>

  ghost predicate Within(small: Table, big: Table) {
    forall l :: l in small ==> l in big && big[l] == small[l]
  }

  predicate IsReplaceable(kind: nat) {
    kind == 0 || kind == 3 || kind == 41 || 10_000 <= kind < 20_000
  }

  predicate IsParamReplaceable(kind: nat) {
    30_000 <= kind < 40_000
  }

  predicate IsEphemeral(kind: nat) {
    20_000 <= kind < 30_000
  }

  predicate IsDeletion(kind: nat) {
    kind == 5
  }

  /** The value of the first d-tag. */
  function FirstD(tags: seq<Tag>): (r: Option<Bytes>)
  {
    if tags == [] then None
    else if tags[0].name == TAG_D then Some(tags[0].value)
    else FirstD(tags[1..])
  }

  lemma {:induction false} FirstDIs(tags: seq<Tag>, d: Bytes)
    ensures FirstD(tags) == Some(d) <==>
      exists i :: 0 <= i < |tags| && tags[i] == Tag(TAG_D, d) && forall j :: 0 <= j < i ==> tags[j].name != TAG_D
  {
    if tags != [] && tags[0].name != TAG_D {
      FirstDIs(tags[1..], d);
      if i :| 0 <= i < |tags| && tags[i] == Tag(TAG_D, d) && forall j :: 0 <= j < i ==> tags[j].name != TAG_D {
        assert tags[1..][i - 1] == Tag(TAG_D, d);
      }
      if FirstD(tags[1..]) == Some(d) {
        var i :| 0 <= i < |tags[1..]| && tags[1..][i] == Tag(TAG_D, d) && forall j :: 0 <= j < i ==> tags[1..][j].name != TAG_D;
        assert tags[i + 1] == Tag(TAG_D, d);
        assert forall j :: 0 < j <= i ==> tags[j] == tags[1..][j - 1];
      }
    }
  }
}
