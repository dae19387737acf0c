/**
  Standard base64 (section 4 of RFC 4648), decoded as Go's encoding/base64 does: line breaks are skipped, padding is
  required.
 */
module Base64 {
  import opened Basics

  function Digit(n: nat): char
    requires n < 64
  {
    if n < 26 then ('A' as int + n) as char
    else if n < 52 then ('a' as int + n - 26) as char
    else if n < 62 then ('0' as int + n - 52) as char
    else if n == 62 then '+' else '/'
  }

  function Value(c: char): Option<nat> {
    if 'A' <= c <= 'Z' then Some(c as int - 'A' as int)
    else if 'a' <= c <= 'z' then Some(c as int - 'a' as int + 26)
    else if '0' <= c <= '9' then Some(c as int - '0' as int + 52)
    else if c == '+' then Some(62)
    else if c == '/' then Some(63)
    else None
  }

  function Encode(b: Bytes): string {
    if b == [] then ""
    else if |b| == 1 then [Digit(b[0] / 4), Digit(b[0] % 4 * 16), '=', '=']
    else if |b| == 2 then [Digit(b[0] / 4), Digit(b[0] % 4 * 16 + b[1] / 16), Digit(b[1] % 16 * 4), '=']
    else
      [Digit(b[0] / 4), Digit(b[0] % 4 * 16 + b[1] / 16), Digit(b[1] % 16 * 4 + b[2] / 64),
          Digit(b[2] % 64)] + Encode(b[3..])
  }

  /** Groups of four characters; bits of the last digit that no byte needs are ignored. */
  function DecodeGroups(s: string): Option<Bytes> {
    if s == "" then Some([])
    else if |s| < 4 then None
    else
      var p, q, x, y := Value(s[0]), Value(s[1]), Value(s[2]), Value(s[3]);
      if p.None? || q.None? then None
      else
        var b0: byte := First(p.value, q.value);
        if s[2] == '=' then (if s[3] == '=' && |s| == 4 then Some([b0]) else None)
        else if x.None? then None
        else
          var b1: byte := Second(q.value, x.value);
          if s[3] == '=' then (if |s| == 4 then Some([b0, b1]) else None)
          else if y.None? then None
          else
            var rest := DecodeGroups(s[4..]);
            if rest.None? then None else Some([b0, b1, Third(x.value, y.value)] + rest.value)
  }

  function First(p: nat, q: nat): byte {
    (p * 4 + q / 16) % 256
  }

  function Second(q: nat, x: nat): byte {
    (q % 16 * 16 + x / 4) % 256
  }

  function Third(x: nat, y: nat): byte {
    (x % 4 * 64 + y) % 256
  }

  /** The text without its line breaks. */
  function Strip(s: string): string {
    if s == "" then "" else if s[0] == '\n' || s[0] == '\r' then Strip(s[1..]) else [s[0]] + Strip(s[1..])
  }

  function Decode(s: string): Option<Bytes> {
    DecodeGroups(Strip(s))
  }

  lemma DigitOk(n: nat)
    requires n < 64
    ensures Value(Digit(n)) == Some(n) && Digit(n) != '=' && Digit(n) != '\n' && Digit(n) != '\r'
  {
  }

  lemma FirstOk(a: byte, b: byte)
    ensures First(a / 4, a % 4 * 16 + b / 16) == a && First(a / 4, a % 4 * 16) == a
  {
  }

  lemma SecondOk(a: byte, b: byte, c: byte)
    ensures Second(a % 4 * 16 + b / 16, b % 16 * 4 + c / 64) == b
  {
    assert (a % 4 * 16 + b / 16) % 16 == b / 16;
    assert (b % 16 * 4 + c / 64) / 4 == b % 16;
  }

  lemma LastSecondOk(a: byte, b: byte)
    ensures Second(a % 4 * 16 + b / 16, b % 16 * 4) == b
  {
    SecondOk(a, b, 0);
  }

  lemma ThirdOk(b: byte, c: byte)
    ensures Third(b % 16 * 4 + c / 64, c % 64) == c
  {
    assert (b % 16 * 4 + c / 64) % 4 == c / 64;
  }

  /** Three bytes cut into six-bit digits and put together again. */
  lemma SplitBytes(a: byte, b: byte, c: byte)
    ensures First(a / 4, a % 4 * 16 + b / 16) == a && First(a / 4, a % 4 * 16) == a
    ensures Second(a % 4 * 16 + b / 16, b % 16 * 4 + c / 64) == b && Second(a % 4 * 16 + b / 16, b % 16 * 4) == b
    ensures Third(b % 16 * 4 + c / 64, c % 64) == c
  {
    FirstOk(a, b);
    SecondOk(a, b, c);
    LastSecondOk(a, b);
    ThirdOk(b, c);
    hide First;
    hide Second;
    hide Third;
  }

  lemma StripOne(c: char, t: string)
    requires c != '\n' && c != '\r'
    ensures Strip([c] + t) == [c] + Strip(t)
  {
    assert ([c] + t)[1..] == t;
  }

  lemma StripTwo(x: char, y: char, t: string)
    requires x != '\n' && x != '\r' && y != '\n' && y != '\r'
    ensures Strip([x, y] + t) == [x, y] + Strip(t)
  {
    hide Strip;
    StripOne(y, t);
    StripOne(x, [y] + t);
    assert [x, y] + t == [x] + ([y] + t);
  }

  lemma StripFour(p: char, q: char, x: char, y: char, t: string)
    requires p != '\n' && p != '\r' && q != '\n' && q != '\r' && x != '\n' && x != '\r' && y != '\n' && y != '\r'
    ensures Strip([p, q, x, y] + t) == [p, q, x, y] + Strip(t)
  {
    hide Strip;
    StripTwo(x, y, t);
    StripTwo(p, q, [x, y] + t);
    assert [p, q, x, y] + t == [p, q] + ([x, y] + t);
    assert [p, q, x, y] + Strip(t) == [p, q] + ([x, y] + Strip(t));
  }

  /** A group of four digits is three bytes and has no line breaks. */
  lemma WholeGroup(p: nat, q: nat, x: nat, y: nat, t: string)
    requires p < 64 && q < 64 && x < 64 && y < 64
    ensures var s := [Digit(p), Digit(q), Digit(x), Digit(y)] + t; var r := DecodeGroups(t);
      && Strip(s) == [Digit(p), Digit(q), Digit(x), Digit(y)] + Strip(t)
      && DecodeGroups(s) == if r.None? then None else Some([First(p, q), Second(q, x), Third(x, y)] + r.value)
  {
    var s := [Digit(p), Digit(q), Digit(x), Digit(y)] + t;
    DigitOk(p);
    DigitOk(q);
    DigitOk(x);
    DigitOk(y);
    hide Digit;
    hide Value;
    hide First;
    hide Second;
    hide Third;
    assert s[4..] == t;
    StripFour(Digit(p), Digit(q), Digit(x), Digit(y), t);
    hide Strip;
  }

  lemma TwoBytes(p: nat, q: nat, x: nat)
    requires p < 64 && q < 64 && x < 64
    ensures var s := [Digit(p), Digit(q), Digit(x), '='];
      Strip(s) == s && DecodeGroups(s) == Some([First(p, q), Second(q, x)])
  {
    DigitOk(p);
    DigitOk(q);
    DigitOk(x);
    hide Digit;
    hide Value;
    hide First;
    hide Second;
    hide Third;
    StripFour(Digit(p), Digit(q), Digit(x), '=', "");
    assert [Digit(p), Digit(q), Digit(x), '='] + "" == [Digit(p), Digit(q), Digit(x), '='];
  }

  lemma OneByte(p: nat, q: nat)
    requires p < 64 && q < 64
    ensures var s := [Digit(p), Digit(q), '=', '=']; Strip(s) == s && DecodeGroups(s) == Some([First(p, q)])
  {
    DigitOk(p);
    DigitOk(q);
    hide Digit;
    hide Value;
    hide First;
    hide Second;
    hide Third;
    StripFour(Digit(p), Digit(q), '=', '=', "");
    assert [Digit(p), Digit(q), '=', '='] + "" == [Digit(p), Digit(q), '=', '='];
  }

  lemma {:induction false} GroupsRoundTrip(b: Bytes)
    ensures DecodeGroups(Encode(b)) == Some(b)
    ensures Strip(Encode(b)) == Encode(b)
  {
    hide Digit;
    hide First;
    hide Second;
    hide Third;
    hide DecodeGroups;
    hide Strip;
    if |b| >= 3 {
      GroupsRoundTrip(b[3..]);
      SplitBytes(b[0], b[1], b[2]);
      WholeGroup(b[0] / 4, b[0] % 4 * 16 + b[1] / 16, b[1] % 16 * 4 + b[2] / 64, b[2] % 64, Encode(b[3..]));
      assert [b[0], b[1], b[2]] + b[3..] == b;
    } else if |b| == 2 {
      SplitBytes(b[0], b[1], 0);
      TwoBytes(b[0] / 4, b[0] % 4 * 16 + b[1] / 16, b[1] % 16 * 4);
      assert b == [b[0], b[1]];
    } else if |b| == 1 {
      SplitBytes(b[0], 0, 0);
      OneByte(b[0] / 4, b[0] % 4 * 16);
      assert b == [b[0]];
    } else {
      Empty();
    }
  }

  lemma Empty()
    ensures DecodeGroups("") == Some([]) && Strip("") == ""
  {
  }

  /** Whatever line breaks are put into an encoded body, it decodes to the body. */
  lemma DecodeEncode(b: Bytes, s: string)
    requires Strip(s) == Encode(b)
    ensures Decode(s) == Some(b)
  {
    GroupsRoundTrip(b);
  }

  // ---------------------------------------------------------------- what the standard says

  /** The alphabet (table 1 of RFC 4648). */
  lemma DigitIs(n: nat)
    requires n < 64
    ensures n < 26 ==> Digit(n) == "ABCDEFGHIJKLMNOPQRSTUVWXYZ"[n]
    ensures 26 <= n < 52 ==> Digit(n) == "abcdefghijklmnopqrstuvwxyz"[n - 26]
    ensures 52 <= n ==> Digit(n) == "0123456789+/"[n - 52]
  {
  }

  /** A character is worth its place in the alphabet, and nothing if it is not in it. */
  lemma ValueIs(n: nat, c: char)
    requires n < 64
    ensures Value(c) == Some(n) <==> c == Digit(n)
    ensures Value(c).Some? ==> Value(c).value < 64
  {
  }

  /** The test vectors of section 10 of RFC 4648 that have all three endings, and one with the last two digits. */
  lemma Vectors()
    ensures Encode([102]) == "Zg==" && Encode([102, 111]) == "Zm8=" && Encode([102, 111, 111]) == "Zm9v"
    ensures Encode([102, 111, 111, 98]) == "Zm9vYg==" && Encode([251, 255, 191]) == "+/+/"
  {
    assert [102, 111, 111, 98][3..] == [98];
    assert Encode([98]) == "Yg==";
    hide Encode;
    FooThenB();
  }

  lemma FooThenB()
    ensures Encode([102, 111, 111, 98]) == "Zm9v" + Encode([98])
    ensures Encode([102]) == "Zg==" && Encode([102, 111]) == "Zm8=" && Encode([102, 111, 111]) == "Zm9v"
    ensures Encode([251, 255, 191]) == "+/+/"
  {
    assert [102, 111, 111, 98][3..] == [98];
    assert [102, 111, 111][3..] == [] && [251, 255, 191][3..] == [];
  }

  /** A digit, or padding: in the last place, or in the one before it with more padding after it. */
  predicate Fitting(t: string, i: nat)
    requires i < |t|
  {
    Value(t[i]).Some? || (t[i] == '=' && (i + 1 == |t| || (i + 2 == |t| && t[i + 1] == '=')))
  }

  predicate WellPadded(t: string) {
    |t| % 4 == 0 && forall i :: 0 <= i < |t| ==> Fitting(t, i)
  }

  /** A first group that is not the last has no padding. */
  lemma MoreGroups(t: string)
    requires |t| > 4
    ensures DecodeGroups(t).Some? <==>
      (forall i :: 0 <= i < 4 ==> Value(t[i]).Some?) && DecodeGroups(t[4..]).Some?
  {
    hide First;
    hide Second;
    hide Third;
    assert Value('=').None?;
  }

  lemma MorePadded(t: string)
    requires |t| > 4
    ensures WellPadded(t) ==> (forall i :: 0 <= i < 4 ==> Value(t[i]).Some?) && WellPadded(t[4..])
    ensures (forall i :: 0 <= i < 4 ==> Value(t[i]).Some?) && WellPadded(t[4..]) ==> WellPadded(t)
  {
    var u := t[4..];
    hide Value;
    assert forall i :: 0 <= i < |u| ==> u[i] == t[i + 4] && (Fitting(u, i) <==> Fitting(t, i + 4));
    if WellPadded(t) {
      assert Fitting(t, 0) && Fitting(t, 1) && Fitting(t, 2) && Fitting(t, 3) && |t| >= 8;
    }
    if (forall i :: 0 <= i < 4 ==> Value(t[i]).Some?) && WellPadded(u) {
      forall i | 0 <= i < |t| ensures Fitting(t, i) {
        assert i >= 4 ==> Fitting(u, i - 4);
      }
    }
  }

  lemma OneGroup(t: string)
    requires |t| <= 4
    ensures DecodeGroups(t).Some? <==> WellPadded(t)
  {
    hide First;
    hide Second;
    hide Third;
    assert Value('=').None?;
    if |t| == 4 {
      assert DecodeGroups(t[4..]) == Some([]);
      assert WellPadded(t) <==> Fitting(t, 0) && Fitting(t, 1) && Fitting(t, 2) && Fitting(t, 3);
      hide Value;
    }
  }

  lemma {:induction false} GroupsIff(t: string)
    ensures DecodeGroups(t).Some? <==> WellPadded(t)
  {
    if |t| > 4 {
      GroupsIff(t[4..]);
      MoreGroups(t);
      MorePadded(t);
    } else {
      OneGroup(t);
    }
    hide *;
  }

  /** Exactly the texts that are well padded once their line breaks are gone can be decoded. */
  lemma DecodeIff(s: string)
    ensures Decode(s).Some? <==> WellPadded(Strip(s))
  {
    GroupsIff(Strip(s));
  }
}
