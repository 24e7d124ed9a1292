/** Unsigned decimal text, as `std::to_string` writes it and `std::from_chars` reads it. */
module Decimal {
  import opened Wrappers
  import opened Bytes
  import opened TextValidation
  import opened StructuredPayload

  predicate IsDigit(b: Byte) {
    0x30 <= b <= 0x39
  }

  function Digits(n: nat): (text: seq<Byte>)
    ensures text != [] && forall b | b in text :: IsDigit(b)
  {
    if n < 10 then [0x30 + n] else Digits(n / 10) + [0x30 + n % 10]
  }

  function Value(text: seq<Byte>): nat
    requires forall b | b in text :: IsDigit(b)
  {
    if text == [] then 0
    else
      var last: int := text[|text| - 1];
      assert IsDigit(text[|text| - 1]);
      10 * Value(text[..|text| - 1]) + (last - 0x30)
  }

  /** The number the whole text denotes, if it is below `limit`. */
  function ParseBelow(text: seq<Byte>, limit: nat): Option<nat> {
    if text != [] && (forall b | b in text :: IsDigit(b)) && Value(text) < limit then Some(Value(text)) else None
  }

  lemma {:induction false} ValueOfDigits(n: nat)
    ensures Value(Digits(n)) == n
  {
    if n >= 10 {
      ValueOfDigits(n / 10);
      var text := Digits(n);
      assert text[..|text| - 1] == Digits(n / 10);
    }
  }

  lemma NumbersComeBack(n: nat, limit: nat)
    requires n < limit
    ensures ParseBelow(Digits(n), limit) == Some(n)
  {
    ValueOfDigits(n);
  }

  function Power10(k: nat): nat {
    if k == 0 then 1 else 10 * Power10(k - 1)
  }

  lemma {:induction false} DigitCount(n: nat, k: nat)
    requires k > 0 && n < Power10(k)
    ensures |Digits(n)| <= k
    decreases k
  {
    if n >= 10 {
      DigitCount(n / 10, k - 1);
    }
  }

  lemma {:induction false} DigitCountAtLeast(n: nat, k: nat)
    requires n >= Power10(k)
    ensures |Digits(n)| > k
    decreases k
  {
    if k > 0 {
      DigitCountAtLeast(n / 10, k - 1);
    }
  }
}
