/** The string helpers the source takes from Go's strings package, on ASCII text, and the raw bytes of a string. */
module Text {
  import opened Basics

  /** ASCII white space, as in strings.TrimSpace and fmt.Sscanf. */
  predicate IsSpace(c: char) {
    c == ' ' || c == '\t' || c == '\n' || c == '\r' || c == '\U{0B}' || c == '\U{0C}'
  }

  predicate AllSpace(s: string) {
    forall i :: 0 <= i < |s| ==> IsSpace(s[i])
  }

  predicate NoSpace(s: string) {
    forall i :: 0 <= i < |s| ==> !IsSpace(s[i])
  }

  function TrimLeft(s: string): string {
    if s != "" && IsSpace(s[0]) then TrimLeft(s[1..]) else s
  }

  function TrimRight(s: string): string {
    if s != "" && IsSpace(s[|s| - 1]) then TrimRight(s[..|s| - 1]) else s
  }

  /** strings.TrimSpace */
  function Trim(s: string): string {
    TrimRight(TrimLeft(s))
  }

  /** strings.HasPrefix */
  predicate HasPrefix(s: string, p: string) {
    |p| <= |s| && s[..|p|] == p
  }

  lemma {:induction false} TrimLeftPadded(a: string, s: string)
    requires AllSpace(a) && (s == "" || !IsSpace(s[0]))
    ensures TrimLeft(a + s) == s
  {
    if a == "" {
      assert a + s == s;
    } else {
      assert (a + s)[1..] == a[1..] + s && (a + s)[0] == a[0];
      TrimLeftPadded(a[1..], s);
    }
  }

  lemma {:induction false} TrimRightPadded(s: string, b: string)
    requires AllSpace(b) && (s == "" || !IsSpace(s[|s| - 1]))
    ensures TrimRight(s + b) == s
  {
    if b == "" {
      assert s + b == s;
    } else {
      var n := |b| - 1;
      assert (s + b)[..|s| + n] == s + b[..n] && (s + b)[|s| + n] == b[n];
      TrimRightPadded(s, b[..n]);
    }
  }

  /** A field that neither starts nor ends with white space survives any padding. */
  lemma TrimPadded(a: string, s: string, b: string)
    requires AllSpace(a) && AllSpace(b) && s != "" && !IsSpace(s[0]) && !IsSpace(s[|s| - 1])
    ensures Trim(a + s + b) == s
  {
    assert a + s + b == a + (s + b);
    TrimLeftPadded(a, s + b);
    TrimRightPadded(s, b);
  }

  // ---------------------------------------------------------------- lines

  predicate OneLine(s: string) {
    '\n' !in s
  }

  /** strings.Split(s, "\n") */
  function Split(s: string): (r: seq<string>)
    ensures |r| > 0
  {
    if s == "" then [""]
    else
      var r := Split(s[1..]);
      if s[0] == '\n' then [""] + r else [[s[0]] + r[0]] + r[1..]
  }

  /** The lines, each ended by a newline. */
  function Unlines(ls: seq<string>): string {
    if ls == [] then "" else ls[0] + "\n" + Unlines(ls[1..])
  }

  lemma {:induction false} SplitLine(l: string, rest: string)
    requires OneLine(l)
    ensures Split(l + "\n" + rest) == [l] + Split(rest)
  {
    if l == "" {
      assert (l + "\n" + rest)[1..] == rest;
    } else {
      assert (l + "\n" + rest)[1..] == l[1..] + "\n" + rest;
      SplitLine(l[1..], rest);
      assert [l[0]] + l[1..] == l;
    }
  }

  lemma {:induction false} SplitWord(l: string)
    requires OneLine(l)
    ensures Split(l) == [l]
  {
    if l != "" {
      SplitWord(l[1..]);
      assert [l[0]] + l[1..] == l;
    }
  }

  /** Splitting gives back the lines that were written, and the empty text after the last newline. */
  lemma {:induction false} SplitUnlines(ls: seq<string>)
    requires forall i :: 0 <= i < |ls| ==> OneLine(ls[i])
    ensures Split(Unlines(ls)) == ls + [""]
  {
    if ls != [] {
      SplitUnlines(ls[1..]);
      SplitLine(ls[0], Unlines(ls[1..]));
      assert [ls[0]] + (ls[1..] + [""]) == ls + [""];
    }
  }

  /** The same when the last line is not ended. */
  lemma {:induction false} SplitUnfinished(ls: seq<string>, f: string)
    requires (forall i :: 0 <= i < |ls| ==> OneLine(ls[i])) && OneLine(f)
    ensures Split(Unlines(ls) + f) == ls + [f]
  {
    if ls == [] {
      assert Unlines(ls) + f == f;
      SplitWord(f);
    } else {
      assert Unlines(ls) + f == ls[0] + "\n" + (Unlines(ls[1..]) + f);
      SplitLine(ls[0], Unlines(ls[1..]) + f);
      SplitUnfinished(ls[1..], f);
      assert [ls[0]] + (ls[1..] + [f]) == ls + [f];
    }
  }

  /** Cutting lines anywhere leaves some whole lines and a piece of the next. */
  lemma {:induction false} CutLines(ls: seq<string>, n: nat) returns (k: nat, f: string)
    requires (forall i :: 0 <= i < |ls| ==> OneLine(ls[i])) && n <= |Unlines(ls)|
    ensures k <= |ls| && OneLine(f) && Unlines(ls)[..n] == Unlines(ls[..k]) + f
    ensures k < |ls| ==> n < |Unlines(ls[..k + 1])| && f <= ls[k]
    ensures k == |ls| ==> f == ""
  {
    if ls == [] {
      k, f := 0, "";
    } else {
      var l := ls[0] + "\n";
      if n < |l| {
        k, f := 0, ls[0][..n];
        assert ls[..1] == [ls[0]] && Unlines([ls[0]]) == l;
        assert Unlines(ls)[..n] == f;
      } else {
        var m;
        m, f := CutLines(ls[1..], n - |l|);
        k := m + 1;
        assert ls[..k][1..] == ls[1..][..m];
        assert m < |ls| - 1 ==> ls[..k + 1][1..] == ls[1..][..m + 1];
        assert Unlines(ls) == l + Unlines(ls[1..]);
        assert Unlines(ls)[..n] == l + Unlines(ls[1..])[..n - |l|];
      }
    }
  }

  // ---------------------------------------------------------------- strings as bytes

  /** []byte(s) for text whose characters are single bytes. */
  function ToBytes(s: string): (b: Bytes)
    ensures |b| == |s|
  {
    seq(|s|, i requires 0 <= i < |s| => s[i] as int % 256)
  }

  /** string(b) */
  function FromBytes(b: Bytes): (s: string)
    ensures |s| == |b| && forall i :: 0 <= i < |b| ==> s[i] == b[i] as char
  {
    seq(|b|, i requires 0 <= i < |b| => b[i] as char)
  }

  predicate IsAscii(s: string) {
    forall i :: 0 <= i < |s| ==> s[i] < '\U{80}'
  }

  lemma BytesOfText(s: string)
    requires IsAscii(s)
    ensures FromBytes(ToBytes(s)) == s
  {
  }
}
