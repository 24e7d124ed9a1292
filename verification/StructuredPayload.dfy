/** The percent-escaped text payload: an optional `OK`, then `key=value` fields, separated by bars. */
module StructuredPayload {
  import opened Wrappers
  import opened Bytes
  import opened TextValidation

  const PERCENT: Byte := 0x25
  const BAR: Byte := 0x7C
  const EQUALS: Byte := 0x3D
  const OK: seq<Byte> := [0x4F, 0x4B]

  datatype PayloadError =
    | NotText | UnescapedSeparator | IncompleteEscape | InvalidEscape
    | EmptyPayload | EmptySegment | InvalidField | InvalidKey | TrailingSeparator | NoFields | InvalidStatus

  datatype Field = Field(key: seq<Byte>, value: seq<Byte>)

  /** A parsed payload; `ok` tells that it starts with the status. */
  datatype Payload = Payload(ok: bool, fields: seq<Field>)

  // ---- Values ----

  function EscapeByte(b: Byte): seq<Byte> {
    if b == PERCENT then [PERCENT, 0x32, 0x35]
    else if b == BAR then [PERCENT, 0x37, 0x43]
    else if b == EQUALS then [PERCENT, 0x33, 0x44]
    else [b]
  }

  function Escape(v: seq<Byte>): seq<Byte> {
    if v == [] then [] else Escape(v[..|v| - 1]) + EscapeByte(v[|v| - 1])
  }

  function EncodeValue(v: seq<Byte>): Result<seq<Byte>, PayloadError> {
    if ValidText(v) then Ok(Escape(v)) else Err(NotText)
  }

  /** The value of a hexadecimal digit, or -1. */
  function HexValue(b: Byte): (h: int)
    ensures -1 <= h < 16
  {
    var n: int := b;
    if 0x30 <= n <= 0x39 then n - 0x30
    else if 0x41 <= n <= 0x46 then n - 0x41 + 10
    else if 0x61 <= n <= 0x66 then n - 0x61 + 10
    else -1
  }

  function Unescape(s: seq<Byte>): Result<seq<Byte>, PayloadError>
    decreases |s|
  {
    if s == [] then Ok([])
    else if s[0] == BAR || s[0] == EQUALS then Err(UnescapedSeparator)
    else if s[0] != PERCENT then Prefixed(s[0], Unescape(s[1..]))
    else if |s| < 3 then Err(IncompleteEscape)
    else if HexValue(s[1]) < 0 || HexValue(s[2]) < 0 then Err(InvalidEscape)
    else Prefixed(16 * HexValue(s[1]) + HexValue(s[2]), Unescape(s[3..]))
  }

  function Prefixed(b: Byte, r: Result<seq<Byte>, PayloadError>): Result<seq<Byte>, PayloadError> {
    if r.Ok? then Ok([b] + r.value) else r
  }

  function DecodeValue(s: seq<Byte>): (r: Result<seq<Byte>, PayloadError>)
    ensures r.Ok? ==> ValidText(r.value)
  {
    var r := Unescape(s);
    if r.Ok? && !ValidText(r.value) then Err(NotText) else r
  }

  // ---- Segments ----

  /** Where `b` first occurs, or the length. */
  function FirstAt(s: seq<Byte>, b: Byte): (k: nat)
    ensures k <= |s| && b !in s[..k] && (k < |s| ==> s[k] == b)
  {
    if s == [] || s[0] == b then 0 else 1 + FirstAt(s[1..], b)
  }

  function Split(s: seq<Byte>): (segments: seq<seq<Byte>>)
    ensures segments != [] && forall seg | seg in segments :: BAR !in seg
    decreases |s|
  {
    var k := FirstAt(s, BAR);
    if k == |s| then [s] else [s[..k]] + Split(s[k + 1..])
  }

  function Join(segments: seq<seq<Byte>>): seq<Byte>
    requires segments != []
  {
    if |segments| == 1 then segments[0] else segments[0] + [BAR] + Join(segments[1..])
  }

  predicate IsKeyByte(b: Byte) {
    0x61 <= b <= 0x7A || 0x41 <= b <= 0x5A || 0x30 <= b <= 0x39 || b == 0x5F
  }

  predicate ValidKey(key: seq<Byte>) {
    key != [] && forall b | b in key :: IsKeyByte(b)
  }

  predicate HasKey(fields: seq<Field>, key: seq<Byte>) {
    exists i | 0 <= i < |fields| :: fields[i].key == key
  }

  function ParseField(seg: seq<Byte>, fields: seq<Field>): Result<Field, PayloadError> {
    var k := FirstAt(seg, EQUALS);
    if k == |seg| || k == 0 || EQUALS in seg[k + 1..] then Err(InvalidField)
    else if !ValidKey(seg[..k]) || HasKey(fields, seg[..k]) then Err(InvalidKey)
    else
      var value := DecodeValue(seg[k + 1..]);
      if value.Err? then Err(value.error) else Ok(Field(seg[..k], value.value))
  }

  /** Reads the segments from left to right; `first` tells that none has been read. */
  function ParseSegments(segments: seq<seq<Byte>>, first: bool, parsed: Payload): Result<Payload, PayloadError>
    decreases |segments|
  {
    if segments == [] then if parsed.fields == [] then Err(NoFields) else Ok(parsed)
    else if segments[0] == [] then Err(if |segments| == 1 && !first then TrailingSeparator else EmptySegment)
    else if first && segments[0] == OK then ParseSegments(segments[1..], false, parsed.(ok := true))
    else
      var field := ParseField(segments[0], parsed.fields);
      if field.Err? then Err(field.error)
      else ParseSegments(segments[1..], false, parsed.(fields := parsed.fields + [field.value]))
  }

  function ParsePayload(s: seq<Byte>): Result<Payload, PayloadError> {
    if s == [] then Err(EmptyPayload) else ParseSegments(Split(s), true, Payload(false, []))
  }

  // ---- Building ----

  /** What the builder accepts: valid distinct keys, valid text, at least one field. */
  ghost predicate Buildable(p: Payload) {
    p.fields != [] && FieldsOk(p.fields)
  }

  ghost predicate FieldsOk(fields: seq<Field>) {
    && (forall i | 0 <= i < |fields| :: ValidKey(fields[i].key) && ValidText(fields[i].value))
    && (forall i, j | 0 <= i < j < |fields| :: fields[i].key != fields[j].key)
  }

  function FieldSegment(f: Field): seq<Byte> {
    f.key + [EQUALS] + Escape(f.value)
  }

  function Rendered(fields: seq<Field>): seq<seq<Byte>> {
    if fields == [] then [] else [FieldSegment(fields[0])] + Rendered(fields[1..])
  }

  function BuildPayload(p: Payload): Result<seq<Byte>, PayloadError> {
    if p.fields == [] then Err(NoFields) else Ok(Join((if p.ok then [OK] else []) + Rendered(p.fields)))
  }

  // ---- Values come back ----

  function Appended(a: seq<Byte>, r: Result<seq<Byte>, PayloadError>): Result<seq<Byte>, PayloadError> {
    if r.Ok? then Ok(a + r.value) else r
  }

  lemma PrefixedAppended(b: Byte, a: seq<Byte>, r: Result<seq<Byte>, PayloadError>)
    ensures Prefixed(b, Appended(a, r)) == Appended([b] + a, r)
  {
    if r.Ok? {
      assert [b] + (a + r.value) == ([b] + a) + r.value;
    }
  }

  lemma {:induction false} UnescapeConcat(a: seq<Byte>, b: seq<Byte>)
    requires Unescape(a).Ok?
    ensures Unescape(a + b) == Appended(Unescape(a).value, Unescape(b))
    decreases |a|
  {
    if a == [] {
      assert a + b == b;
      assert Unescape(b).Ok? ==> [] + Unescape(b).value == Unescape(b).value;
    } else {
      var n := if a[0] == PERCENT then 3 else 1;
      assert (a + b)[n..] == a[n..] + b;
      UnescapeConcat(a[n..], b);
      PrefixedAppended(Unescape(a).value[0], Unescape(a[n..]).value, Unescape(b));
    }
  }

  lemma UnescapeEscapedByte(b: Byte)
    ensures Unescape(EscapeByte(b)) == Ok([b])
  {
    var e := EscapeByte(b);
    assert Unescape([]) == Ok([]) && [b] + [] == [b];
    if |e| == 3 {
      assert e[3..] == [] && 16 * HexValue(e[1]) + HexValue(e[2]) == b;
    } else {
      assert e[1..] == [];
    }
  }

  lemma {:induction false} UnescapeEscape(v: seq<Byte>)
    ensures Unescape(Escape(v)) == Ok(v)
  {
    if v != [] {
      var n := |v| - 1;
      UnescapeEscape(v[..n]);
      UnescapeEscapedByte(v[n]);
      UnescapeConcat(Escape(v[..n]), EscapeByte(v[n]));
      assert v[..n] + [v[n]] == v;
    }
  }

  /** Every valid text survives the wire. */
  lemma DecodeEncode(v: seq<Byte>)
    requires ValidText(v)
    ensures EncodeValue(v).Ok? && DecodeValue(EncodeValue(v).value) == Ok(v)
  {
    UnescapeEscape(v);
  }

  lemma {:induction false} EscapedHasNoSeparator(v: seq<Byte>)
    ensures BAR !in Escape(v) && EQUALS !in Escape(v)
  {
    if v != [] {
      EscapedHasNoSeparator(v[..|v| - 1]);
    }
  }

  // ---- Segments come back ----

  lemma FirstAtBar(s: seq<Byte>, b: Byte, rest: seq<Byte>)
    requires b !in s
    ensures FirstAt(s + [b] + rest, b) == |s| && FirstAt(s, b) == |s|
  {
    var t := s + [b] + rest;
    assert t[|s|] == b;
    assert forall i | 0 <= i < |s| :: t[i] == s[i];
  }

  lemma SplitFirst(seg: seq<Byte>, rest: seq<Byte>)
    requires BAR !in seg
    ensures Split(seg + [BAR] + rest) == [seg] + Split(rest)
  {
    FirstAtBar(seg, BAR, rest);
    assert (seg + [BAR] + rest)[|seg| + 1..] == rest;
    assert (seg + [BAR] + rest)[..|seg|] == seg;
  }

  lemma SplitNone(seg: seq<Byte>)
    requires BAR !in seg
    ensures Split(seg) == [seg]
  {
    FirstAtBar(seg, BAR, []);
  }

  lemma {:induction false} SplitJoin(segments: seq<seq<Byte>>)
    requires segments != [] && forall i | 0 <= i < |segments| :: BAR !in segments[i]
    ensures Split(Join(segments)) == segments
    decreases |segments|
  {
    if |segments| == 1 {
      SplitNone(segments[0]);
    } else {
      SplitJoin(segments[1..]);
      SplitFirst(segments[0], Join(segments[1..]));
      assert segments == [segments[0]] + segments[1..];
    }
  }

  // ---- Payloads come back ----

  lemma {:induction false} RenderedSegments(fields: seq<Field>)
    requires FieldsOk(fields)
    ensures |Rendered(fields)| == |fields|
    ensures forall i | 0 <= i < |fields| :: Rendered(fields)[i] == FieldSegment(fields[i])
    ensures forall seg | seg in Rendered(fields) :: seg != [] && BAR !in seg
    decreases |fields|
  {
    if fields != [] {
      assert FieldsOk(fields[1..]);
      RenderedSegments(fields[1..]);
      EscapedHasNoSeparator(fields[0].value);
    }
  }

  lemma FieldComesBack(f: Field, before: seq<Field>)
    requires ValidKey(f.key) && ValidText(f.value) && !HasKey(before, f.key)
    ensures ParseField(FieldSegment(f), before) == Ok(f) && FieldSegment(f) != [] && FieldSegment(f) != OK
  {
    var seg := FieldSegment(f);
    assert EQUALS !in f.key;
    FirstAtBar(f.key, EQUALS, Escape(f.value));
    assert seg[..|f.key|] == f.key && seg[|f.key| + 1..] == Escape(f.value) && seg[|f.key|] == EQUALS;
    EscapedHasNoSeparator(f.value);
    DecodeEncode(f.value);
  }

  lemma RenderedAt(fields: seq<Field>, k: nat)
    requires k < |fields|
    ensures Rendered(fields[k..]) == [FieldSegment(fields[k])] + Rendered(fields[k + 1..])
  {
    assert fields[k..][1..] == fields[k + 1..] && fields[k..][0] == fields[k];
  }

  /** Reading one rendered field adds it, whatever follows. */
  lemma OneFieldComesBack(f: Field, rest: seq<seq<Byte>>, before: seq<Field>, first: bool, ok: bool)
    requires ValidKey(f.key) && ValidText(f.value) && !HasKey(before, f.key)
    ensures ParseSegments([FieldSegment(f)] + rest, first, Payload(ok, before))
         == ParseSegments(rest, false, Payload(ok, before + [f]))
  {
    FieldComesBack(f, before);
    assert ([FieldSegment(f)] + rest)[1..] == rest;
  }

  /** Reading rendered fields adds them one by one. */
  lemma {:induction false} FieldsComeBack(fields: seq<Field>, k: nat, first: bool, ok: bool)
    requires FieldsOk(fields) && fields != [] && k <= |fields|
    ensures ParseSegments(Rendered(fields[k..]), first, Payload(ok, fields[..k])) == Ok(Payload(ok, fields))
    decreases |fields| - k
  {
    if k == |fields| {
      assert fields[..k] == fields;
    } else {
      RenderedAt(fields, k);
      OneFieldComesBack(fields[k], Rendered(fields[k + 1..]), fields[..k], first, ok);
      assert fields[..k] + [fields[k]] == fields[..k + 1];
      FieldsComeBack(fields, k + 1, false, ok);
    }
  }

  /** Whatever the builder accepts is parsed back exactly, fields in order. */
  lemma ParseBuild(p: Payload)
    requires Buildable(p)
    ensures BuildPayload(p).Ok? && ParsePayload(BuildPayload(p).value) == Ok(p)
  {
    var rendered := Rendered(p.fields);
    var segments := (if p.ok then [OK] else []) + rendered;
    RenderedSegments(p.fields);
    assert forall i | 0 <= i < |rendered| :: rendered[i] in rendered;
    SplitJoin(segments);
    assert p.fields[0..] == p.fields && p.fields[..0] == [];
    if p.ok {
      assert segments[1..] == rendered;
      FieldsComeBack(p.fields, 0, false, true);
    } else {
      assert segments == rendered;
      FieldsComeBack(p.fields, 0, true, false);
    }
  }

  lemma {:induction false} ParsedIsBuildable(segments: seq<seq<Byte>>, first: bool, parsed: Payload)
    requires FieldsOk(parsed.fields) && ParseSegments(segments, first, parsed).Ok?
    ensures Buildable(ParseSegments(segments, first, parsed).value)
    decreases |segments|
  {
    if segments != [] {
      if first && segments[0] == OK {
        ParsedIsBuildable(segments[1..], false, parsed.(ok := true));
      } else {
        var f := ParseField(segments[0], parsed.fields).value;
        ParsedIsBuildable(segments[1..], false, parsed.(fields := parsed.fields + [f]));
      }
    }
  }

  /** Every payload that parses has a canonical form, which parses to the same payload and is its own
      canonical form. */
  lemma CanonicalForm(w: seq<Byte>)
    requires ParsePayload(w).Ok?
    ensures var p := ParsePayload(w).value;
            && Buildable(p) && BuildPayload(p).Ok? && ParsePayload(BuildPayload(p).value) == Ok(p)
            && BuildPayload(ParsePayload(BuildPayload(p).value).value) == BuildPayload(p)
  {
    ParsedIsBuildable(Split(w), true, Payload(false, []));
    ParseBuild(ParsePayload(w).value);
  }

  // ---- The loops ----

  method EncodeStructuredValue(value: seq<Byte>) returns (r: Result<seq<Byte>, PayloadError>)
    ensures r == EncodeValue(value)
  {
    var valid := IsValidText(value);
    ValidIffText(value);
    if !valid {
      return Err(NotText);
    }
    var encoded: seq<Byte> := [];
    for i := 0 to |value|
      invariant encoded == Escape(value[..i])
    {
      assert value[..i + 1][..i] == value[..i];
      encoded := encoded + EscapeByte(value[i]);
    }
    assert value[..|value|] == value;
    r := Ok(encoded);
  }

  method DecodeStructuredValue(value: seq<Byte>) returns (r: Result<seq<Byte>, PayloadError>)
    ensures r == DecodeValue(value)
  {
    var decoded: seq<Byte> := [];
    var index := 0;
    NothingDecoded(value);
    while index < |value|
      invariant index <= |value| && Unescape(value) == Appended(decoded, Unescape(value[index..]))
    {
      var b := value[index];
      if b == BAR || b == EQUALS {
        return Err(UnescapedSeparator);
      }
      if b != PERCENT {
        assert value[index..][1..] == value[index + 1..];
        OneDecoded(decoded, b, Unescape(value[index + 1..]));
        decoded, index := decoded + [b], index + 1;
      } else {
        if |value| - index < 3 {
          return Err(IncompleteEscape);
        }
        var high, low := HexValue(value[index + 1]), HexValue(value[index + 2]);
        if high < 0 || low < 0 {
          return Err(InvalidEscape);
        }
        assert value[index..][3..] == value[index + 3..];
        OneDecoded(decoded, 16 * high + low, Unescape(value[index + 3..]));
        decoded, index := decoded + [16 * high + low], index + 3;
      }
    }
    assert value[index..] == [] && decoded + [] == decoded;
    var valid := IsValidText(decoded);
    ValidIffText(decoded);
    r := if valid then Ok(decoded) else Err(NotText);
  }

  lemma NothingDecoded(value: seq<Byte>)
    ensures Unescape(value) == Appended([], Unescape(value[0..]))
  {
    assert value[0..] == value;
    assert Unescape(value).Ok? ==> [] + Unescape(value).value == Unescape(value).value;
  }

  lemma OneDecoded(decoded: seq<Byte>, b: Byte, r: Result<seq<Byte>, PayloadError>)
    ensures Appended(decoded, Prefixed(b, r)) == Appended(decoded + [b], r)
  {
    if r.Ok? {
      assert decoded + ([b] + r.value) == (decoded + [b]) + r.value;
    }
  }

  method ParseSegment(segment: seq<Byte>, first: bool, parsed: Payload, ghost rest: seq<seq<Byte>>)
    returns (r: Result<Payload, PayloadError>)
    requires segment != []
    ensures ParseSegments([segment] + rest, first, parsed)
         == if r.Ok? then ParseSegments(rest, false, r.value) else Err(r.error)
  {
    assert ([segment] + rest)[1..] == rest;
    if first && segment == OK {
      return Ok(parsed.(ok := true));
    }
    var k := FirstAt(segment, EQUALS);
    if k == |segment| || k == 0 || EQUALS in segment[k + 1..] {
      return Err(InvalidField);
    }
    var key := segment[..k];
    if !ValidKey(key) || HasKey(parsed.fields, key) {
      return Err(InvalidKey);
    }
    var value := DecodeStructuredValue(segment[k + 1..]);
    if value.Err? {
      return Err(value.error);
    }
    r := Ok(parsed.(fields := parsed.fields + [Field(key, value.value)]));
  }

  ghost function AfterBar(s: seq<Byte>): seq<seq<Byte>> {
    var k := FirstAt(s, BAR);
    if k == |s| then [] else Split(s[k + 1..])
  }

  lemma SplitOnce(s: seq<Byte>)
    ensures Split(s) == [s[..FirstAt(s, BAR)]] + AfterBar(s)
  {
    var k := FirstAt(s, BAR);
    if k == |s| {
      assert s[..k] == s && [s] + [] == [s];
    }
  }

  lemma EmptyFirst(s: seq<Byte>, first: bool, parsed: Payload)
    requires s != [] && s[0] == BAR
    ensures ParseSegments(Split(s), first, parsed) == Err(EmptySegment)
  {
    assert FirstAt(s, BAR) == 0;
    SplitOnce(s);
  }

  lemma NothingAfterBar(parsed: Payload)
    ensures ParseSegments(Split([]), false, parsed) == Err(TrailingSeparator)
  {
    assert Split([]) == [[]];
  }

  method Parse(payload: seq<Byte>) returns (r: Result<Payload, PayloadError>)
    ensures r == ParsePayload(payload)
  {
    if payload == [] {
      return Err(EmptyPayload);
    }
    var parsed, rest, first, done := Payload(false, []), payload, true, false;
    r := Err(NoFields);
    while !done
      invariant rest == [] ==> !first
      invariant ParsePayload(payload) == if done then r else ParseSegments(Split(rest), first, parsed)
      decreases !done, |rest|
    {
      SplitOnce(rest);
      var k := FirstAt(rest, BAR);
      if rest == [] {
        NothingAfterBar(parsed);
        r, done := Err(TrailingSeparator), true;
      } else if k == 0 {
        EmptyFirst(rest, first, parsed);
        r, done := Err(EmptySegment), true;
      } else {
        var step := ParseSegment(rest[..k], first, parsed, AfterBar(rest));
        if step.Err? {
          r, done := Err(step.error), true;
        } else if k == |rest| {
          r, done := if step.value.fields == [] then Err(NoFields) else step, true;
        } else {
          parsed, first, rest := step.value, false, rest[k + 1..];
        }
      }
    }
  }

  lemma {:induction false} JoinMore(segments: seq<seq<Byte>>, segment: seq<Byte>)
    requires segments != []
    ensures Join(segments + [segment]) == Join(segments) + [BAR] + segment
    decreases |segments|
  {
    var more := segments + [segment];
    assert more[0] == segments[0];
    if |segments| == 1 {
      assert more[1..] == [segment];
    } else {
      assert more[1..] == segments[1..] + [segment];
      JoinMore(segments[1..], segment);
      var head, tail := segments[0] + [BAR], Join(segments[1..]);
      assert head + (tail + [BAR] + segment) == (head + tail) + [BAR] + segment;
    }
  }

  lemma {:induction false} RenderedMore(fields: seq<Field>, f: Field)
    ensures Rendered(fields + [f]) == Rendered(fields) + [FieldSegment(f)]
  {
    if fields == [] {
      assert fields + [f] == [f] && [f][1..] == [];
    } else {
      assert (fields + [f])[1..] == fields[1..] + [f];
      RenderedMore(fields[1..], f);
    }
  }

  /** The loop has rendered `fields` so far, segment by segment. */
  ghost predicate Rendering(ok: bool, fields: seq<Field>, segments: seq<seq<Byte>>, payload: seq<Byte>) {
    && segments == (if ok then [OK] else []) + Rendered(fields)
    && (segments == [] <==> payload == []) && (segments != [] ==> payload == Join(segments))
  }

  lemma RenderingMore(ok: bool, fields: seq<Field>, f: Field, segments: seq<seq<Byte>>, payload: seq<Byte>)
    requires Rendering(ok, fields, segments, payload)
    ensures Rendering(ok, fields + [f], segments + [FieldSegment(f)],
                      (if payload != [] then payload + [BAR] else payload) + FieldSegment(f))
  {
    RenderedMore(fields, f);
    if segments != [] {
      JoinMore(segments, FieldSegment(f));
    }
  }

  /** Collects fields and renders them. */
  class PayloadBuilder {
    var ok: bool
    var fields: seq<Field>

    ghost predicate Valid()
      reads this
    {
      FieldsOk(fields)
    }

    constructor (ok: bool)
      ensures Valid() && this.ok == ok && fields == []
    {
      this.ok, fields := ok, [];
    }

    /** A builder with a status; only `OK` is one. */
    static method WithStatus(status: seq<Byte>) returns (r: Result<PayloadBuilder, PayloadError>)
      ensures r.Ok? <==> status == OK
      ensures r.Ok? ==> fresh(r.value) && r.value.Valid() && r.value.ok && r.value.fields == []
    {
      if status != OK {
        return Err(InvalidStatus);
      }
      var builder := new PayloadBuilder(true);
      r := Ok(builder);
    }

    method AddField(key: seq<Byte>, value: seq<Byte>) returns (r: Result<(), PayloadError>)
      requires Valid()
      modifies this
      ensures Valid() && ok == old(ok)
      ensures r.Ok? <==> ValidKey(key) && !HasKey(old(fields), key) && ValidText(value)
      ensures fields == if r.Ok? then old(fields) + [Field(key, value)] else old(fields)
    {
      if !ValidKey(key) || HasKey(fields, key) {
        return Err(InvalidKey);
      }
      var valid := IsValidText(value);
      ValidIffText(value);
      if !valid {
        return Err(NotText);
      }
      fields := fields + [Field(key, value)];
      r := Ok(());
    }

    /** What it renders is parsed back to exactly its status and fields. */
    method Build() returns (r: Result<seq<Byte>, PayloadError>)
      requires Valid()
      ensures r == BuildPayload(Payload(ok, fields))
      ensures r.Ok? ==> ParsePayload(r.value) == Ok(Payload(ok, fields))
    {
      if fields == [] {
        return Err(NoFields);
      }
      var payload := if ok then OK else [];
      ghost var segments: seq<seq<Byte>> := if ok then [OK] else [];
      for i := 0 to |fields|
        invariant Rendering(ok, fields[..i], segments, payload)
      {
        assert fields[..i + 1] == fields[..i] + [fields[i]];
        RenderingMore(ok, fields[..i], fields[i], segments, payload);
        var encoded := EncodeStructuredValue(fields[i].value);
        payload := (if payload != [] then payload + [BAR] else payload) + (fields[i].key + [EQUALS] + encoded.value);
        segments := segments + [FieldSegment(fields[i])];
      }
      assert fields[..|fields|] == fields;
      ParseBuild(Payload(ok, fields));
      r := Ok(payload);
    }
  }
}
