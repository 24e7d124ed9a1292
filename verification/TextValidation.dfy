/** Text accepted on the wire: UTF-8 as defined in sections 3 and 4 of RFC 3629, without the ASCII
    controls U+0000 to U+001F and U+007F. */
module TextValidation {
  import opened Bytes

  // ---- The standard: Unicode scalar values and their encoding ----

  type Scalar = c: int | 0 <= c <= 0x10FFFF && !(0xD800 <= c <= 0xDFFF)

  function EncodeScalar(c: Scalar): seq<Byte> {
    if c < 0x80 then [c]
    else if c < 0x800 then [0xC0 + c / 0x40, 0x80 + c % 0x40]
    else if c < 0x1_0000 then [0xE0 + c / 0x1000, 0x80 + c / 0x40 % 0x40, 0x80 + c % 0x40]
    else [0xF0 + c / 0x4_0000, 0x80 + c / 0x1000 % 0x40, 0x80 + c / 0x40 % 0x40, 0x80 + c % 0x40]
  }

  function EncodeScalars(cs: seq<Scalar>): seq<Byte> {
    if cs == [] then [] else EncodeScalar(cs[0]) + EncodeScalars(cs[1..])
  }

  predicate Printable(c: Scalar) {
    0x20 <= c && c != 0x7F
  }

  ghost predicate IsTextOf(text: seq<Byte>, cs: seq<Scalar>) {
    (forall i | 0 <= i < |cs| :: Printable(cs[i])) && text == EncodeScalars(cs)
  }

  // ---- The validator ----

  predicate IsContinuation(b: Byte) {
    0x80 <= b <= 0xBF
  }

  predicate HasContinuations(text: seq<Byte>, count: nat) {
    |text| > count && forall i | 1 <= i <= count :: IsContinuation(text[i])
  }

  /** The number of bytes the validator advances at the front of `text`; 0 when it rejects. */
  function CharLength(text: seq<Byte>): (n: nat)
    requires text != []
    ensures n <= |text|
  {
    var lead := text[0];
    if lead <= 0x7F then if lead <= 0x1F || lead == 0x7F then 0 else 1
    else if 0xC2 <= lead <= 0xDF then if HasContinuations(text, 1) then 2 else 0
    else if 0xE0 <= lead <= 0xEF then
      if !HasContinuations(text, 2) then 0
      else if (lead == 0xE0 && text[1] < 0xA0) || (lead == 0xED && text[1] > 0x9F) then 0 else 3
    else if 0xF0 <= lead <= 0xF4 then
      if !HasContinuations(text, 3) then 0
      else if (lead == 0xF0 && text[1] < 0x90) || (lead == 0xF4 && text[1] > 0x8F) then 0 else 4
    else 0
  }

  predicate ValidText(text: seq<Byte>) {
    text == [] || (CharLength(text) > 0 && ValidText(text[CharLength(text)..]))
  }

  method HasContinuationBytes(text: seq<Byte>, index: nat, count: nat) returns (r: bool)
    requires index < |text|
    ensures r <==> HasContinuations(text[index..], count)
  {
    if |text| - index <= count {
      return false;
    }
    for offset := 1 to count + 1
      invariant forall i | 1 <= i < offset :: IsContinuation(text[index..][i])
    {
      if !IsContinuation(text[index + offset]) {
        assert !IsContinuation(text[index..][offset]);
        return false;
      }
    }
    return true;
  }

  method IsValidText(text: seq<Byte>) returns (ok: bool)
    ensures ok <==> exists cs :: IsTextOf(text, cs)
  {
    var index := 0;
    ok := true;
    while index < |text| && ok
      invariant index <= |text|
      invariant ValidText(text) <==> ok && ValidText(text[index..])
      decreases |text| - index, ok
    {
      ghost var rest := text[index..];
      assert forall n | 0 <= n <= |rest| :: rest[n..] == text[index + n..];
      var lead := text[index];
      if lead <= 0x7F {
        if lead <= 0x1F || lead == 0x7F {
          ok := false;
        } else {
          index := index + 1;
        }
        continue;
      }
      if 0xC2 <= lead <= 0xDF {
        ok := HasContinuationBytes(text, index, 1);
        if ok {
          index := index + 2;
        }
        continue;
      }
      if 0xE0 <= lead <= 0xEF {
        ok := HasContinuationBytes(text, index, 2);
        if ok {
          var second := text[index + 1];
          if (lead == 0xE0 && second < 0xA0) || (lead == 0xED && second > 0x9F) {
            ok := false;
          } else {
            index := index + 3;
          }
        }
        continue;
      }
      if 0xF0 <= lead <= 0xF4 {
        ok := HasContinuationBytes(text, index, 3);
        if ok {
          var second := text[index + 1];
          if (lead == 0xF0 && second < 0x90) || (lead == 0xF4 && second > 0x8F) {
            ok := false;
          } else {
            index := index + 4;
          }
        }
        continue;
      }
      ok := false;
    }
    ValidIffText(text);
  }

  // ---- The validator accepts exactly the encodings ----

  function DecodeScalar(text: seq<Byte>): (c: Scalar)
    requires text != [] && CharLength(text) > 0
  {
    var n := CharLength(text);
    var b0: int := text[0];
    if n == 1 then b0
    else
      var b1: int := text[1] - 0x80;
      if n == 2 then (b0 - 0xC0) * 0x40 + b1
      else
        var b2: int := text[2] - 0x80;
        if n == 3 then ((b0 - 0xE0) * 0x40 + b1) * 0x40 + b2
        else
          var b3: int := text[3] - 0x80;
          (((b0 - 0xF0) * 0x40 + b1) * 0x40 + b2) * 0x40 + b3
  }

  function DecodeScalars(text: seq<Byte>): (cs: seq<Scalar>)
    requires ValidText(text)
  {
    if text == [] then [] else [DecodeScalar(text)] + DecodeScalars(text[CharLength(text)..])
  }

  /** One accepted step reads exactly one printable scalar value, in its one legal encoding. */
  lemma AcceptedIsEncoding(text: seq<Byte>)
    requires text != [] && CharLength(text) > 0
    ensures Printable(DecodeScalar(text))
    ensures EncodeScalar(DecodeScalar(text)) == text[..CharLength(text)]
  {
    var n := CharLength(text);
    var b0: int := text[0];
    if n == 2 {
      JoinedDigits(0, 0, b0 - 0xC0, text[1] - 0x80);
      assert text[..2] == [text[0], text[1]];
    } else if n == 3 {
      JoinedDigits(0, b0 - 0xE0, text[1] - 0x80, text[2] - 0x80);
      assert text[..3] == [text[0], text[1], text[2]];
    } else if n == 4 {
      JoinedDigits(b0 - 0xF0, text[1] - 0x80, text[2] - 0x80, text[3] - 0x80);
      assert text[..4] == [text[0], text[1], text[2], text[3]];
    }
  }

  lemma JoinedDigits(a: int, b: int, d: int, e: int)
    requires 0 <= a && 0 <= b < 0x40 && 0 <= d < 0x40 && 0 <= e < 0x40
    ensures var c := ((a * 0x40 + b) * 0x40 + d) * 0x40 + e;
            && c / 0x4_0000 == a && c / 0x1000 == a * 0x40 + b && c / 0x1000 % 0x40 == b
            && c / 0x40 == (a * 0x40 + b) * 0x40 + d && c / 0x40 % 0x40 == d && c % 0x40 == e
  {
  }

  lemma EncodingIsAccepted(c: Scalar, rest: seq<Byte>)
    requires Printable(c)
    ensures CharLength(EncodeScalar(c) + rest) == |EncodeScalar(c)|
    ensures DecodeScalar(EncodeScalar(c) + rest) == c
  {
    var code := EncodeScalar(c);
    var text := code + rest;
    if c < 0x80 {
      assert text[0] == c;
    } else if c < 0x800 {
      assert text[0] == code[0] && text[1] == code[1];
      assert HasContinuations(text, 1);
    } else if c < 0x1_0000 {
      assert text[0] == code[0] && text[1] == code[1] && text[2] == code[2];
      ThreeDigits(c);
      assert HasContinuations(text, 2);
    } else {
      assert text[0] == code[0] && text[1] == code[1] && text[2] == code[2] && text[3] == code[3];
      FourDigits(c);
      assert HasContinuations(text, 3);
    }
  }

  lemma ThreeDigits(c: Scalar)
    requires 0x800 <= c < 0x1_0000
    ensures var a, b := c / 0x1000, c / 0x40 % 0x40;
            && 0 <= a <= 0xF && (a == 0 ==> 0x20 <= b) && (a == 0xD ==> b <= 0x1F)
            && c == (a * 0x40 + b) * 0x40 + c % 0x40
  {
    assert c / 0x40 == c / 0x1000 * 0x40 + c / 0x40 % 0x40;
  }

  lemma FourDigits(c: Scalar)
    requires 0x1_0000 <= c
    ensures var a, b := c / 0x4_0000, c / 0x1000 % 0x40;
            && 0 <= a <= 4 && (a == 0 ==> 0x10 <= b) && (a == 4 ==> b <= 0xF)
            && c == ((a * 0x40 + b) * 0x40 + c / 0x40 % 0x40) * 0x40 + c % 0x40
  {
    assert c / 0x1000 == c / 0x4_0000 * 0x40 + c / 0x1000 % 0x40;
    assert c / 0x40 == c / 0x1000 * 0x40 + c / 0x40 % 0x40;
  }

  lemma {:induction false} DecodeIsInverse(text: seq<Byte>)
    requires ValidText(text)
    ensures IsTextOf(text, DecodeScalars(text))
    decreases |text|
  {
    if text != [] {
      var n := CharLength(text);
      AcceptedIsEncoding(text);
      DecodeIsInverse(text[n..]);
      assert text == text[..n] + text[n..];
    }
  }

  /** Encodings are valid, and a text has only one decoding. */
  lemma {:induction false} EncodeIsInverse(cs: seq<Scalar>)
    requires forall i | 0 <= i < |cs| :: Printable(cs[i])
    ensures ValidText(EncodeScalars(cs)) && DecodeScalars(EncodeScalars(cs)) == cs
  {
    if cs != [] {
      var text := EncodeScalars(cs);
      EncodingIsAccepted(cs[0], EncodeScalars(cs[1..]));
      EncodeIsInverse(cs[1..]);
      assert text[|EncodeScalar(cs[0])|..] == EncodeScalars(cs[1..]);
    }
  }

  lemma ValidIffText(text: seq<Byte>)
    ensures ValidText(text) <==> exists cs :: IsTextOf(text, cs)
  {
    if ValidText(text) {
      DecodeIsInverse(text);
    }
    if cs :| IsTextOf(text, cs) {
      EncodeIsInverse(cs);
    }
  }

  /** A valid prefix neither helps nor hurts what follows it. */
  lemma {:induction false} ValidConcat(a: seq<Byte>, b: seq<Byte>)
    requires ValidText(a)
    ensures ValidText(a + b) <==> ValidText(b)
    decreases |a|
  {
    if a == [] {
      assert a + b == b;
    } else {
      var n := CharLength(a);
      assert CharLength(a + b) == n;
      ValidConcat(a[n..], b);
      assert (a + b)[n..] == a[n..] + b;
    }
  }

  /** Plain printable ASCII is valid text. */
  predicate PlainAscii(text: seq<Byte>) {
    forall i | 0 <= i < |text| :: 0x20 <= text[i] < 0x7F
  }

  lemma {:induction false} PlainAsciiIsValid(text: seq<Byte>)
    requires PlainAscii(text)
    ensures ValidText(text)
    decreases |text|
  {
    if text != [] {
      PlainAsciiIsValid(text[1..]);
    }
  }

  // ---- Trimming ----

  predicate IsAsciiWhitespace(b: Byte) {
    b == 0x20 || 0x09 <= b <= 0x0D
  }

  ghost predicate Blank(text: seq<Byte>) {
    forall i | 0 <= i < |text| :: IsAsciiWhitespace(text[i])
  }

  ghost predicate Trimmed(text: seq<Byte>) {
    text != [] ==> !IsAsciiWhitespace(text[0]) && !IsAsciiWhitespace(text[|text| - 1])
  }

  /** `core` is what is left of `text` after blank bytes, and only those, are cut at both ends. */
  ghost predicate IsTrimOf(text: seq<Byte>, core: seq<Byte>) {
    Trimmed(core) && exists pre, post :: Blank(pre) && Blank(post) && text == pre + core + post
  }

  lemma TrimIsUnique(text: seq<Byte>, a: seq<Byte>, b: seq<Byte>)
    requires IsTrimOf(text, a) && IsTrimOf(text, b)
    ensures a == b
  {
    var p, q :| Blank(p) && Blank(q) && text == p + a + q;
    var r, s :| Blank(r) && Blank(s) && text == r + b + s;
    OutsideIsBlank(text, p, a, q);
    OutsideIsBlank(text, r, b, s);
    assert a == text[|p|..|p| + |a|] && b == text[|r|..|r| + |b|];
  }

  lemma OutsideIsBlank(text: seq<Byte>, pre: seq<Byte>, core: seq<Byte>, post: seq<Byte>)
    requires Blank(pre) && Blank(post) && Trimmed(core) && text == pre + core + post
    ensures forall i | 0 <= i < |text| && !(|pre| <= i < |pre| + |core|) :: IsAsciiWhitespace(text[i])
    ensures core != [] ==> !IsAsciiWhitespace(text[|pre|]) && !IsAsciiWhitespace(text[|pre| + |core| - 1])
  {
    assert forall i | 0 <= i < |pre| :: text[i] == pre[i];
    assert forall i | 0 <= i < |core| :: text[|pre| + i] == core[i];
    assert forall i | |pre| + |core| <= i < |text| :: text[i] == post[i - |pre| - |core|];
  }

  method TrimAsciiWhitespace(text: seq<Byte>) returns (core: seq<Byte>)
    ensures IsTrimOf(text, core)
  {
    var begin := 0;
    while begin < |text| && IsAsciiWhitespace(text[begin])
      invariant begin <= |text| && Blank(text[..begin])
    {
      begin := begin + 1;
    }
    var end := |text|;
    while end > begin && IsAsciiWhitespace(text[end - 1])
      invariant begin <= end <= |text| && Blank(text[end..])
    {
      end := end - 1;
    }
    core := text[begin..end];
    assert text[..begin] + core == text[..end];
    assert text == text[..begin] + core + text[end..];
  }

  /** Trimming as a function, for use in specifications. */
  function TrimStart(text: seq<Byte>): seq<Byte> {
    if text != [] && IsAsciiWhitespace(text[0]) then TrimStart(text[1..]) else text
  }

  function TrimEnd(text: seq<Byte>): seq<Byte> {
    if text != [] && IsAsciiWhitespace(text[|text| - 1]) then TrimEnd(text[..|text| - 1]) else text
  }

  function Trim(text: seq<Byte>): seq<Byte> {
    TrimEnd(TrimStart(text))
  }

  lemma {:induction false} TrimStartCuts(text: seq<Byte>) returns (pre: seq<Byte>)
    ensures Blank(pre) && text == pre + TrimStart(text)
    ensures TrimStart(text) != [] ==> !IsAsciiWhitespace(TrimStart(text)[0])
    decreases |text|
  {
    if text != [] && IsAsciiWhitespace(text[0]) {
      pre := TrimStartCuts(text[1..]);
      pre := [text[0]] + pre;
    } else {
      pre := [];
    }
  }

  lemma {:induction false} TrimEndCuts(text: seq<Byte>) returns (post: seq<Byte>)
    ensures Blank(post) && text == TrimEnd(text) + post
    ensures TrimEnd(text) != [] ==> !IsAsciiWhitespace(TrimEnd(text)[|TrimEnd(text)| - 1])
    decreases |text|
  {
    if text != [] && IsAsciiWhitespace(text[|text| - 1]) {
      post := TrimEndCuts(text[..|text| - 1]);
      post := post + [text[|text| - 1]];
    } else {
      post := [];
    }
  }

  lemma TrimCuts(text: seq<Byte>)
    ensures IsTrimOf(text, Trim(text))
  {
    var pre := TrimStartCuts(text);
    var post := TrimEndCuts(TrimStart(text));
    assert text == pre + Trim(text) + post;
    if Trim(text) != [] {
      assert Trim(text)[0] == TrimStart(text)[0];
    }
  }
}
