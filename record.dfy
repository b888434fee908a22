/** The Thing record and its identifier rules (util/yaml.go, lines 75-119 and
    203-240). YAML (un)marshalling and UUID minting belong to libraries and
    enter as a codec value and a minted string. */
module ThingRecord {
  import opened Basics

  datatype ThingId = ThingId(uuid: string, name: string, version: string, url: seq<string>)

  /** A Thing: its Id, and the remaining fields (target, relation, schema,
      behavior, parameter, legal) kept uninterpreted, keyed by field name. */
  datatype Thing = Thing(id: ThingId, rest: map<string, string>)

  /** The zero value of Go's Thing struct. */
  const ZeroThing: Thing := Thing(ThingId("", "", "", []), map[])

  const UuidPrefix: string := "urn:uuid:"

  /** The outcome of yaml.Unmarshal into a zero Thing: whatever was decoded,
      and whether the library reported an error. */
  datatype Decoded = Decoded(thing: Thing, failed: bool)

  /** The YAML library as seen by this file: Marshal may fail (None). */
  datatype YamlCodec = YamlCodec(marshal: Thing -> Option<string>, unmarshal: string -> Decoded)

  /** Two Things that differ at most in Id.Uuid. */
  predicate SameButUuid(a: Thing, b: Thing)
  {
    a.id.(uuid := "") == b.id.(uuid := "") && a.rest == b.rest
  }

  /** The identifier rule shared by ParseThing and SerializeThing: generate
      an identifier only when the current one is empty. */
  function EnsureId(t: Thing, minted: string): (r: Thing)
    ensures r.id.uuid != ""
    ensures t.id.uuid != "" ==> r == t
    ensures t.id.uuid == "" ==> r.id.uuid == UuidPrefix + minted
    ensures SameButUuid(t, r)
  {
    if t.id.uuid == "" then t.(id := t.id.(uuid := UuidPrefix + minted)) else t
  }

  /** A *Thing: the source mutates Things through pointers. */
  class ThingRef {
    var thing: Thing

    constructor (t: Thing)
      ensures thing == t
    {
      thing := t;
    }

    /** GenId: overwrite Id.Uuid with a freshly minted URN, nothing else. */
    method GenId(minted: string)
      modifies this
      ensures thing.id.uuid == UuidPrefix + minted
      ensures SameButUuid(old(thing), thing)
    {
      thing := thing.(id := thing.id.(uuid := UuidPrefix + minted));
    }
  }

  /** The Thing NewThing creates: zero but for a generated identifier. */
  function NewThingValue(minted: string): (t: Thing)
    ensures HasPrefix(t.id.uuid, UuidPrefix) && t.id.uuid == UuidPrefix + minted
    ensures SameButUuid(t, ZeroThing)
  {
    ZeroThing.(id := ZeroThing.id.(uuid := UuidPrefix + minted))
  }

  /** NewThing: a zero Thing whose identifier has just been generated. */
  method NewThing(minted: string) returns (t: ThingRef)
    ensures fresh(t)
    ensures t.thing == NewThingValue(minted)
    ensures HasPrefix(t.thing.id.uuid, UuidPrefix) && SameButUuid(t.thing, ZeroThing)
  {
    t := new ThingRef(ZeroThing);
    t.GenId(minted);
  }

  /** ParseThing: unmarshal into a zero Thing, then generate an identifier
      only if none was decoded; the library's error is passed through. */
  function ParseThing(codec: YamlCodec, content: string, minted: string): (r: Decoded)
    ensures r.failed == codec.unmarshal(content).failed
    ensures r.thing.id.uuid != ""
    ensures codec.unmarshal(content).thing.id.uuid != "" ==> r.thing == codec.unmarshal(content).thing
    ensures codec.unmarshal(content).thing.id.uuid == "" ==> r.thing.id.uuid == UuidPrefix + minted
    ensures SameButUuid(r.thing, codec.unmarshal(content).thing)
  {
    var d := codec.unmarshal(content);
    Decoded(EnsureId(d.thing, minted), d.failed)
  }

  /** SerializeThing: make sure the caller's Thing has an identifier (keeping
      an existing one), then marshal it. */
  method SerializeThing(t: ThingRef, codec: YamlCodec, minted: string) returns (bytes: Option<string>)
    modifies t
    ensures t.thing == EnsureId(old(t.thing), minted)
    ensures bytes == codec.marshal(t.thing)
  {
    if t.thing.id.uuid == "" {
      t.GenId(minted);
    }
    bytes := codec.marshal(t.thing);
  }

  // ---------------------------------------------------------------------------
  // Properties of the identifier rule

  /** Identifier assignment is idempotent: a second pass, with any minted
      value, leaves the first pass's result alone. */
  lemma EnsureIdIdempotent(t: Thing, minted1: string, minted2: string)
    ensures EnsureId(EnsureId(t, minted1), minted2) == EnsureId(t, minted1)
  {
  }

  /** Re-parsing content that already names an identifier keeps it, whatever
      UUID the generator would have minted. */
  lemma ParseKeepsDecodedId(codec: YamlCodec, content: string, minted1: string, minted2: string)
    requires codec.unmarshal(content).thing.id.uuid != ""
    ensures ParseThing(codec, content, minted1) == ParseThing(codec, content, minted2)
  {
  }
}
