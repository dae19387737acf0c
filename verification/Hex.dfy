/** encoding/hex: EncodeToString and DecodeString. */
module Hex {
  import opened Basics
  import opened Text

  const DIGITS := "0123456789abcdef"

  function DigitValue(c: char): Option<nat> {
    if '0' <= c <= '9' then Some(c as int - '0' as int)
    else if 'a' <= c <= 'f' then Some(c as int - 'a' as int + 10)
    else if 'A' <= c <= 'F' then Some(c as int - 'A' as int + 10)
    else None
  }

  function Encode(b: Bytes): (s: string) {
    if b == [] then "" else [DIGITS[b[0] / 16], DIGITS[b[0] % 16]] + Encode(b[1..])
  }

  function Decode(s: string): Option<Bytes> {
    if s == "" then Some([])
    else if |s| == 1 then None
    else
      var hi, lo, rest := DigitValue(s[0]), DigitValue(s[1]), Decode(s[2..]);
      if hi.None? || lo.None? || rest.None? then None
      else
        var x: int := hi.value * 16 + lo.value;
        if 0 <= x < 256 then Some([x] + rest.value) else None
  }

  predicate IsHexDigit(c: char) {
    '0' <= c <= '9' || 'a' <= c <= 'f'
  }

  lemma DigitOk(n: nat)
    requires n < 16
    ensures IsHexDigit(DIGITS[n]) && DigitValue(DIGITS[n]) == Some(n)
  {
  }

  lemma {:induction false} Encoded(b: Bytes)
    ensures |Encode(b)| == 2 * |b|
    ensures forall i :: 0 <= i < |Encode(b)| ==> IsHexDigit(Encode(b)[i])
  {
    if b != [] {
      DigitOk(b[0] / 16);
      DigitOk(b[0] % 16);
      Encoded(b[1..]);
    }
  }

  lemma {:induction false} DecodeEncode(b: Bytes)
    ensures Decode(Encode(b)) == Some(b)
  {
    if b != [] {
      DigitOk(b[0] / 16);
      DigitOk(b[0] % 16);
      DecodeEncode(b[1..]);
      assert Encode(b)[2..] == Encode(b[1..]);
      assert [b[0]] + b[1..] == b;
    }
  }

  /** Two lower-case digits a byte, the high half first. */
  lemma {:induction false} EncodedAt(b: Bytes, i: nat)
    requires i < |b|
    ensures |Encode(b)| == 2 * |b|
    ensures Encode(b)[2 * i] == "0123456789abcdef"[b[i] / 16] && Encode(b)[2 * i + 1] == "0123456789abcdef"[b[i] % 16]
  {
    Encoded(b);
    if i > 0 {
      EncodedAt(b[1..], i - 1);
      assert Encode(b)[2..] == Encode(b[1..]);
    }
  }

  /** Digits of either case stand for their place in the row of digits, and nothing else is a digit. */
  lemma DigitValueIs(c: char, n: nat)
    requires n < 16
    ensures DigitValue(c) == Some(n) <==> c == "0123456789abcdef"[n] || c == "0123456789ABCDEF"[n]
    ensures DigitValue(c).Some? ==> DigitValue(c).value < 16
  {
  }

  /** Exactly the strings of an even number of digits decode, two digits to a byte. */
  lemma {:induction false} DecodeIs(s: string)
    ensures Decode(s).Some? <==> |s| % 2 == 0 && forall i :: 0 <= i < |s| ==> DigitValue(s[i]).Some?
    ensures Decode(s).Some? ==> |s| == 2 * |Decode(s).value|
    ensures Decode(s).Some? ==> forall i :: 0 <= i < |Decode(s).value| ==>
      Decode(s).value[i] == 16 * DigitValue(s[2 * i]).value + DigitValue(s[2 * i + 1]).value
  {
    if |s| >= 2 {
      DecodeIs(s[2..]);
      DigitValueIs(s[0], 0);
      DigitValueIs(s[1], 0);
      hide DigitValue;
      assert forall i :: 2 <= i < |s| ==> s[i] == s[2..][i - 2];
      assert (forall i :: 0 <= i < |s| ==> DigitValue(s[i]).Some?) ==>
        forall i :: 0 <= i < |s[2..]| ==> DigitValue(s[2..][i]).Some?;
    }
  }

  /** Distinct byte strings have distinct encodings. */
  lemma Injective(a: Bytes, b: Bytes)
    requires Encode(a) == Encode(b)
    ensures a == b
  {
    DecodeEncode(a);
    DecodeEncode(b);
  }

  /** The encoding of a prefix is a prefix of the encoding. */
  lemma {:induction false} EncodePrefix(b: Bytes, n: nat)
    requires n <= |b|
    ensures |Encode(b)| == 2 * |b| && Encode(b)[..2 * n] == Encode(b[..n])
  {
    Encoded(b);
    if n > 0 {
      EncodePrefix(b[1..], n - 1);
      assert b[..n][1..] == b[1..][..n - 1];
      var d := [DIGITS[b[0] / 16], DIGITS[b[0] % 16]];
      assert Encode(b)[..2 * n] == d + Encode(b[1..])[..2 * (n - 1)];
    }
  }
}
