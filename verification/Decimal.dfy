/** Signed decimal numbers: fmt's %d and strconv.FormatInt out, fmt.Sscanf's %d and strconv.ParseInt in. */
module Decimal {
  import opened Basics
  import opened Text

  predicate IsDigit(c: char) {
    '0' <= c <= '9'
  }

  predicate AllDigits(s: string) {
    forall i :: 0 <= i < |s| ==> IsDigit(s[i])
  }

  function Digits(n: nat): string {
    if n < 10 then [('0' as int + n) as char] else Digits(n / 10) + [('0' as int + n % 10) as char]
  }

  function Value(s: string): nat
    requires AllDigits(s)
  {
    if s == "" then 0 else 10 * Value(s[..|s| - 1]) + (s[|s| - 1] as int - '0' as int)
  }

  function Print(n: int64): string {
    var m: int := n;
    if m < 0 then "-" + Digits(-m) else Digits(m)
  }

  predicate IsSign(c: char) {
    c == '+' || c == '-'
  }

  function Unsigned(s: string): string {
    if s != "" && IsSign(s[0]) then s[1..] else s
  }

  /** strconv.ParseInt(s, 10, 64) */
  function ParseInt(s: string): Option<int64> {
    var d := Unsigned(s);
    if d == "" || !AllDigits(d) then None
    else
      var n: int := Value(d);
      var v := if s[0] == '-' then -n else n;
      if -0x8000_0000_0000_0000 <= v < 0x8000_0000_0000_0000 then Some(v) else None
  }

  function DigitRun(s: string): (r: string)
    ensures |r| <= |s| && AllDigits(r)
  {
    if s != "" && IsDigit(s[0]) then [s[0]] + DigitRun(s[1..]) else ""
  }

  /** The number at the front of `s`: an optional sign and the digits after it. */
  function NumberToken(s: string): string {
    if s != "" && IsSign(s[0]) then [s[0]] + DigitRun(s[1..]) else DigitRun(s)
  }

  /** fmt.Sscanf's %d: blanks are skipped and whatever follows the number is ignored; None when it fails. */
  function Scan(s: string): Option<int64> {
    ParseInt(NumberToken(TrimLeft(s)))
  }

  lemma {:induction false} ValueDigits(n: nat)
    ensures Digits(n) != "" && AllDigits(Digits(n)) && Value(Digits(n)) == n
  {
    if n >= 10 {
      ValueDigits(n / 10);
      var d := Digits(n);
      assert d[..|d| - 1] == Digits(n / 10);
    } else {
      assert Digits(n)[..0] == "";
    }
  }

  predicate IsNumber(s: string) {
    Unsigned(s) != "" && AllDigits(Unsigned(s))
  }

  /** A number with or without its sign is made of digits. */
  lemma Signed(d: string)
    requires d != "" && AllDigits(d)
    ensures Unsigned(d) == d && Unsigned("-" + d) == d
    ensures NoSpace(d) && IsAscii(d) && NoSpace("-" + d) && IsAscii("-" + d)
  {
    assert ("-" + d)[1..] == d;
    assert IsDigit(d[0]);
    forall i | 0 <= i < |d| ensures !IsSpace(d[i]) && d[i] < '\U{80}' {
      assert IsDigit(d[i]);
    }
  }

  lemma Printed(n: int64)
    ensures IsNumber(Print(n)) && NoSpace(Print(n)) && Print(n) != "" && IsAscii(Print(n))
  {
    var m: int := n;
    var d := Digits(if m < 0 then -m else m);
    ValueDigits(if m < 0 then -m else m);
    hide Digits;
    Signed(d);
  }

  lemma ParsePrint(n: int64)
    ensures ParseInt(Print(n)) == Some(n)
  {
    var m: int := n;
    var d := Digits(if m < 0 then -m else m);
    ValueDigits(if m < 0 then -m else m);
    hide Digits;
    hide Value;
    Signed(d);
    assert IsDigit(d[0]);
  }

  lemma {:induction false} DigitRunStops(d: string, rest: string)
    requires AllDigits(d) && (rest == "" || !IsDigit(rest[0]))
    ensures DigitRun(d + rest) == d
  {
    if d == "" {
      assert d + rest == rest;
    } else {
      assert (d + rest)[1..] == d[1..] + rest;
      DigitRunStops(d[1..], rest);
      assert [d[0]] + d[1..] == d;
    }
  }

  lemma TokenStops(s: string, rest: string)
    requires IsNumber(s) && (rest == "" || !IsDigit(rest[0]))
    ensures NumberToken(s + rest) == s
  {
    DigitRunStops(Unsigned(s), rest);
    if IsSign(s[0]) {
      assert (s + rest)[1..] == s[1..] + rest;
      assert [s[0]] + s[1..] == s;
    }
  }

  /** A printed number reads back through any blanks before it and any text after it that is not another digit. */
  lemma ScanPrint(pad: string, n: int64, rest: string)
    requires AllSpace(pad) && (rest == "" || !IsDigit(rest[0]))
    ensures Scan(pad + Print(n) + rest) == Some(n)
  {
    Printed(n);
    ParsePrint(n);
    assert pad + Print(n) + rest == pad + (Print(n) + rest);
    TrimLeftPadded(pad, Print(n) + rest);
    TokenStops(Print(n), rest);
  }

  // ---------------------------------------------------------------- which texts spell which numbers

  function Zeros(k: nat): string {
    seq(k, _ => '0')
  }

  /** The sign, `k` zeros, and the decimal digits of |n|, which begin with 0 only for 0 itself. */
  predicate SpelledWith(s: string, n: int, sign: string, k: nat) {
    && (if n < 0 then sign == "-" else sign == "" || sign == "+" || (sign == "-" && n == 0))
    && s == sign + (Zeros(k) + Digits(if n < 0 then -n else n))
  }

  ghost predicate Spells(s: string, n: int) {
    exists sign: string, k: nat :: SpelledWith(s, n, sign, k)
  }

  /** The digits of a number, one decimal place at a time, without zeros in front. */
  lemma {:induction false} DigitsAre(n: nat)
    ensures AllDigits(Digits(n)) && |Digits(n)| > 0 && (n > 0 ==> Digits(n)[0] != '0') && Digits(0) == "0"
    ensures Digits(n)[|Digits(n)| - 1] == "0123456789"[n % 10]
    ensures n >= 10 ==> Digits(n)[..|Digits(n)| - 1] == Digits(n / 10)
  {
    if n >= 10 {
      DigitsAre(n / 10);
    }
  }

  /** Any digits are zeros and then the digits of their value. */
  lemma {:induction false} DigitsOfValue(d: string) returns (k: nat)
    requires d != "" && AllDigits(d)
    ensures d == Zeros(k) + Digits(Value(d))
  {
    var n := |d| - 1;
    var last := d[n] as int - '0' as int;
    assert IsDigit(d[n]);
    if n == 0 {
      k := 0;
      assert Value(d[..0]) == 0 && Digits(last) == [d[n]];
      assert d == Zeros(0) + [d[n]];
    } else {
      k := DigitsOfValue(d[..n]);
      if Value(d[..n]) == 0 {
        assert d == Zeros(k + 1) + [d[n]];
        k := k + 1;
      } else {
        assert d == (Zeros(k) + Digits(Value(d[..n]))) + [d[n]];
        assert d == Zeros(k) + (Digits(Value(d[..n])) + [d[n]]);
      }
    }
  }

  lemma {:induction false} ValueAfterZeros(k: nat, d: string)
    requires AllDigits(d)
    ensures AllDigits(Zeros(k) + d) && Value(Zeros(k) + d) == Value(d)
  {
    var s := Zeros(k) + d;
    if d != "" {
      assert s[..|s| - 1] == Zeros(k) + d[..|d| - 1];
      ValueAfterZeros(k, d[..|d| - 1]);
    } else if k > 0 {
      assert s[..k - 1] == Zeros(k - 1) + "" && s == Zeros(k - 1) + "" + "0";
      ValueAfterZeros(k - 1, "");
    }
  }

  lemma ParsedSpells(s: string, n: int64)
    requires ParseInt(s) == Some(n)
    ensures Spells(s, n)
  {
    var d := Unsigned(s);
    var k := DigitsOfValue(d);
    var sign := if IsSign(s[0]) then [s[0]] else "";
    var m: int := n;
    assert s == sign + d;
    assert Value(d) == if m < 0 then -m else m;
    hide Value;
    hide Digits;
    assert SpelledWith(s, m, sign, k);
  }

  lemma SpelledParses(s: string, n: int64)
    requires Spells(s, n)
    ensures ParseInt(s) == Some(n)
  {
    var m: int := n;
    var abs := if m < 0 then -m else m;
    var sign: string, k: nat :| SpelledWith(s, m, sign, k);
    ValueDigits(abs);
    ValueAfterZeros(k, Digits(abs));
    var d := Zeros(k) + Digits(abs);
    hide Digits;
    hide Value;
    hide Zeros;
    assert s == sign + d;
    assert IsDigit(d[0]);
    assert Unsigned(s) == d by {
      if sign != "" {
        assert s[1..] == d;
      } else {
        assert s == d;
      }
    }
  }

  /** ParseInt takes exactly the spellings of the numbers that fit in 64 bits. */
  lemma ParseIntIff(s: string, n: int64)
    ensures ParseInt(s) == Some(n) <==> Spells(s, n)
  {
    if ParseInt(s) == Some(n) {
      ParsedSpells(s, n);
    }
    if Spells(s, n) {
      SpelledParses(s, n);
    }
    hide *;
  }

  /** What is printed is the shortest spelling without a plus sign. */
  lemma PrintSpells(n: int64)
    ensures Spells(Print(n), n) && Print(0) == "0"
    ensures Print(n)[0] != '+' && (n != 0 ==> Print(n)[0] != '0') && (n < 0 <==> Print(n)[0] == '-')
    ensures n < 0 ==> |Print(n)| >= 2 && Print(n)[1] != '0'
  {
    var m: int := n;
    ParsePrint(n);
    ParsedSpells(Print(n), n);
    DigitsAre(if m < 0 then -m else m);
    DigitsAre(0);
  }
}
