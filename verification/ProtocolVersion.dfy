/** Version negotiation: ranges on the wire and the choice the server makes. */
module ProtocolVersion {
  import opened Wrappers
  import opened Bytes
  import opened TextValidation
  import opened StructuredPayload
  import opened Decimal
  import opened Messages

  const MIN_PROTOCOL_VERSION: U16 := 1
  const MAX_PROTOCOL_VERSION: U16 := 1
  const VERSION_SPACE := 0x1_0000

  const MIN_VERSION := Ascii("min_version")
  const MAX_VERSION := Ascii("max_version")
  const VERSION := Ascii("version")

  datatype VersionRange = VersionRange(minVersion: U16, maxVersion: U16)

  predicate ValidRange(r: VersionRange) {
    0 < r.minVersion <= r.maxVersion
  }

  function ParseVersion(text: seq<Byte>): (v: Option<U16>)
    ensures v.Some? ==> v.value > 0
  {
    var n := ParseBelow(text, VERSION_SPACE);
    if n.Some? && n.value > 0 then Some(n.value) else None
  }

  function RequestPayload(r: VersionRange): Payload {
    Payload(false, [Field(MIN_VERSION, Digits(r.minVersion)), Field(MAX_VERSION, Digits(r.maxVersion))])
  }

  function ResponsePayload(version: U16): Payload {
    Payload(true, [Field(VERSION, Digits(version))])
  }

  /** `None` stands for the protocol error. */
  function EncodeRequest(r: VersionRange): Option<seq<Byte>> {
    if ValidRange(r) then Some(BuildPayload(RequestPayload(r)).value) else None
  }

  function DecodeRequest(bytes: seq<Byte>): (r: Option<VersionRange>)
    ensures r.Some? ==> ValidRange(r.value)
  {
    var parsed := ParsePayload(bytes);
    if parsed.Err? || parsed.value.ok || |parsed.value.fields| != 2 then None
    else
      var low, high := Lookup(parsed.value.fields, MIN_VERSION), Lookup(parsed.value.fields, MAX_VERSION);
      if low == None || high == None then None
      else
        var a, b := ParseVersion(low.value), ParseVersion(high.value);
        if a == None || b == None || !ValidRange(VersionRange(a.value, b.value)) then None
        else Some(VersionRange(a.value, b.value))
  }

  function EncodeResponse(version: U16): Option<seq<Byte>> {
    if version == 0 then None else Some(BuildPayload(ResponsePayload(version)).value)
  }

  function DecodeResponse(bytes: seq<Byte>): Option<U16> {
    var parsed := ParsePayload(bytes);
    if parsed.Err? || !parsed.value.ok || |parsed.value.fields| != 1 then None
    else
      var text := Lookup(parsed.value.fields, VERSION);
      if text == None then None else ParseVersion(text.value)
  }

  /** The highest version both sides speak. */
  function Negotiate(r: VersionRange): Option<U16>
    requires ValidRange(r)
  {
    var lower := if r.minVersion > MIN_PROTOCOL_VERSION then r.minVersion else MIN_PROTOCOL_VERSION;
    var upper := if r.maxVersion < MAX_PROTOCOL_VERSION then r.maxVersion else MAX_PROTOCOL_VERSION;
    if lower > upper then None else Some(upper)
  }

  predicate Common(r: VersionRange, v: U16) {
    r.minVersion <= v <= r.maxVersion && MIN_PROTOCOL_VERSION <= v <= MAX_PROTOCOL_VERSION
  }

  lemma NegotiatesBest(r: VersionRange)
    requires ValidRange(r)
    ensures Negotiate(r) == None <==> forall v: U16 :: !Common(r, v)
    ensures Negotiate(r).Some? ==>
              Common(r, Negotiate(r).value) && forall v: U16 | Common(r, v) :: v <= Negotiate(r).value
  {
    assert Negotiate(r).Some? ==> Common(r, Negotiate(r).value);
  }

  lemma VersionKeys()
    ensures ValidKey(MIN_VERSION) && ValidKey(MAX_VERSION) && ValidKey(VERSION) && MIN_VERSION != MAX_VERSION
  {
    assert MIN_VERSION[1] == 'i' as int && MAX_VERSION[1] == 'a' as int;
  }

  lemma TwoFields(a: Field, b: Field)
    requires ValidKey(a.key) && ValidKey(b.key) && a.key != b.key && ValidText(a.value) && ValidText(b.value)
    ensures FieldsOk([a, b]) && Lookup([a, b], a.key) == Some(a.value) && Lookup([a, b], b.key) == Some(b.value)
  {
    assert [a, b][1..] == [b] && [b][0] == b;
  }

  lemma VersionNumber(v: U16)
    requires v > 0
    ensures ValidText(Digits(v)) && ParseVersion(Digits(v)) == Some(v)
  {
    NumberValue(v);
    NumbersComeBack(v, VERSION_SPACE);
  }

  lemma RequestComesBack(r: VersionRange)
    requires ValidRange(r)
    ensures EncodeRequest(r).Some? && DecodeRequest(EncodeRequest(r).value) == Some(r)
  {
    VersionKeys();
    VersionNumber(r.minVersion);
    VersionNumber(r.maxVersion);
    TwoFields(Field(MIN_VERSION, Digits(r.minVersion)), Field(MAX_VERSION, Digits(r.maxVersion)));
    ParseBuild(RequestPayload(r));
  }

  lemma ResponseComesBack(version: U16)
    requires version > 0
    ensures EncodeResponse(version).Some? && DecodeResponse(EncodeResponse(version).value) == Some(version)
  {
    VersionKeys();
    VersionNumber(version);
    ParseBuild(ResponsePayload(version));
  }
}
