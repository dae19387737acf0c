/** The metadata file of a local entry: writeMetadata's printer and readMetadata's parser (localcache.go:80-146). */
module MetadataText {
  import opened Basics
  import opened Text
  import opened Protocol
  import Hex
  import Decimal

  function OutputLine(m: Metadata): string {
    "outputID:" + Hex.Encode(m.outputID)
  }

  function SizeLine(m: Metadata): string {
    "size:" + Decimal.Print(m.size)
  }

  function TimeLine(m: Metadata): string {
    "time:" + Decimal.Print(m.time)
  }

  function Print(m: Metadata): string {
    Unlines([OutputLine(m), SizeLine(m), TimeLine(m)])
  }

  /** The bytes writeMetadata puts into the file. */
  function Format(m: Metadata): Bytes {
    ToBytes(Print(m))
  }

  /** The local variables of readMetadata. */
  datatype Fields = Fields(hex: string, size: int64, time: int64)

  const START := Fields("", 0, 0)

  function WordRun(s: string): string {
    if s != "" && !IsSpace(s[0]) then [s[0]] + WordRun(s[1..]) else ""
  }

  /** fmt.Sscanf's %s: None when nothing but blanks is left. */
  function ScanWord(s: string): Option<string> {
    var t := TrimLeft(s);
    if t == "" then None else Some(WordRun(t))
  }

  /** One iteration of readMetadata's loop; a failed scan leaves the variable as it was. */
  function ReadLine(f: Fields, line: string): Fields {
    var l := Trim(line);
    if HasPrefix(l, "outputID:") then
      var w := ScanWord(l[9..]);
      if w.Some? then f.(hex := w.value) else f
    else if HasPrefix(l, "size:") then
      var n := Decimal.Scan(l[5..]);
      if n.Some? then f.(size := n.value) else f
    else if HasPrefix(l, "time:") then
      var n := Decimal.Scan(l[5..]);
      if n.Some? then f.(time := n.value) else f
    else f
  }

  function ReadLines(ls: seq<string>): Fields {
    if ls == [] then START else ReadLine(ReadLines(ls[..|ls| - 1]), ls[|ls| - 1])
  }

  /** What readMetadata returns for the variables its loop ended with. */
  function Finish(f: Fields): Option<Metadata> {
    if f.hex == "" then None
    else
      var o := Hex.Decode(f.hex);
      if o.None? then None else Some(Metadata(o.value, f.size, f.time))
  }

  function Parse(text: string): Option<Metadata> {
    Finish(ReadLines(Split(text)))
  }

  function ParseBytes(b: Bytes): Option<Metadata> {
    Parse(FromBytes(b))
  }

  // ---------------------------------------------------------------- single lines

  lemma {:induction false} WordRunAll(s: string)
    requires NoSpace(s)
    ensures WordRun(s) == s
  {
    if s != "" {
      WordRunAll(s[1..]);
      assert [s[0]] + s[1..] == s;
    }
  }

  lemma HexWord(b: Bytes)
    ensures NoSpace(Hex.Encode(b)) && IsAscii(Hex.Encode(b)) && |Hex.Encode(b)| == 2 * |b|
    ensures ScanWord(Hex.Encode(b)) == if b == [] then None else Some(Hex.Encode(b))
  {
    Hex.Encoded(b);
    var s := Hex.Encode(b);
    forall i | 0 <= i < |s| ensures !IsSpace(s[i]) && s[i] < '\U{80}' {
      assert Hex.IsHexDigit(s[i]);
    }
    WordRunAll(s);
  }

  lemma ReadOutputLine(f: Fields, line: string, m: Metadata)
    requires Trim(line) == OutputLine(m)
    ensures ReadLine(f, line) == if m.outputID == [] then f else f.(hex := Hex.Encode(m.outputID))
  {
    HexWord(m.outputID);
    assert OutputLine(m)[..9] == "outputID:" && OutputLine(m)[9..] == Hex.Encode(m.outputID);
  }

  lemma ScanNumber(n: int64)
    ensures Decimal.Scan(Decimal.Print(n)) == Some(n)
  {
    Decimal.ScanPrint("", n, "");
    assert "" + Decimal.Print(n) + "" == Decimal.Print(n);
  }

  lemma ReadSizeLine(f: Fields, line: string, m: Metadata)
    requires Trim(line) == SizeLine(m)
    ensures ReadLine(f, line) == f.(size := m.size)
  {
    ScanNumber(m.size);
    assert SizeLine(m)[..5] == "size:" && SizeLine(m)[5..] == Decimal.Print(m.size);
    assert SizeLine(m)[0] == 's';
  }

  lemma ReadTimeLine(f: Fields, line: string, m: Metadata)
    requires Trim(line) == TimeLine(m)
    ensures ReadLine(f, line) == f.(time := m.time)
  {
    ScanNumber(m.time);
    assert TimeLine(m)[..5] == "time:" && TimeLine(m)[5..] == Decimal.Print(m.time);
    assert TimeLine(m)[0] == 't';
  }

  // ---------------------------------------------------------------- whole files

  /** A line that names none of the three fields. */
  predicate Junk(line: string) {
    var l := Trim(line);
    !HasPrefix(l, "outputID:") && !HasPrefix(l, "size:") && !HasPrefix(l, "time:")
  }

  predicate Tolerated(m: Metadata, line: string) {
    Junk(line) || Trim(line) == OutputLine(m) || Trim(line) == SizeLine(m) || Trim(line) == TimeLine(m)
  }

  predicate AllTolerated(m: Metadata, ls: seq<string>) {
    forall i :: 0 <= i < |ls| ==> Tolerated(m, ls[i])
  }

  predicate Has(ls: seq<string>, field: string) {
    exists i :: 0 <= i < |ls| && Trim(ls[i]) == field
  }

  lemma HasLast(ls: seq<string>, field: string)
    requires ls != []
    ensures Has(ls, field) <==> Has(ls[..|ls| - 1], field) || Trim(ls[|ls| - 1]) == field
  {
    var k := |ls| - 1;
    if Has(ls, field) && Trim(ls[k]) != field {
      var i :| 0 <= i < |ls| && Trim(ls[i]) == field;
      assert Trim(ls[..k][i]) == field;
    }
    if Has(ls[..k], field) {
      var i :| 0 <= i < k && Trim(ls[..k][i]) == field;
      assert Trim(ls[i]) == field;
    }
  }

  lemma FieldsDiffer(m: Metadata)
    ensures OutputLine(m)[0] == 'o' && SizeLine(m)[0] == 's' && TimeLine(m)[0] == 't'
    ensures HasPrefix(OutputLine(m), "outputID:") && HasPrefix(SizeLine(m), "size:") && HasPrefix(TimeLine(m), "time:")
  {
    assert OutputLine(m)[..9] == "outputID:" && SizeLine(m)[..5] == "size:" && TimeLine(m)[..5] == "time:";
  }

  lemma ReadTolerated(m: Metadata, f: Fields, line: string)
    requires Tolerated(m, line) && m.outputID != []
    ensures ReadLine(f, line) ==
      Fields(if Trim(line) == OutputLine(m) then Hex.Encode(m.outputID) else f.hex,
             if Trim(line) == SizeLine(m) then m.size else f.size,
             if Trim(line) == TimeLine(m) then m.time else f.time)
  {
    FieldsDiffer(m);
    if Trim(line) == OutputLine(m) {
      ReadOutputLine(f, line, m);
    } else if Trim(line) == SizeLine(m) {
      ReadSizeLine(f, line, m);
    } else if Trim(line) == TimeLine(m) {
      ReadTimeLine(f, line, m);
    }
  }

  lemma {:induction false} ReadToleratedLines(m: Metadata, ls: seq<string>)
    requires m.outputID != [] && AllTolerated(m, ls)
    ensures ReadLines(ls) ==
      Fields(if Has(ls, OutputLine(m)) then Hex.Encode(m.outputID) else "",
             if Has(ls, SizeLine(m)) then m.size else 0,
             if Has(ls, TimeLine(m)) then m.time else 0)
  {
    if ls != [] {
      var k := |ls| - 1;
      ReadToleratedLines(m, ls[..k]);
      ReadTolerated(m, ReadLines(ls[..k]), ls[k]);
      HasLast(ls, OutputLine(m));
      HasLast(ls, SizeLine(m));
      HasLast(ls, TimeLine(m));
    }
  }

  lemma EmptyIsJunk()
    ensures Junk("")
  {
  }

  lemma HasMore(ls: seq<string>, l: string, field: string)
    requires Has(ls, field)
    ensures Has(ls + [l], field)
  {
    var i :| 0 <= i < |ls| && Trim(ls[i]) == field;
    assert Trim((ls + [l])[i]) == field;
  }

  lemma FinishAll(m: Metadata)
    requires m.outputID != []
    ensures Finish(Fields(Hex.Encode(m.outputID), m.size, m.time)) == Some(m)
  {
    Hex.Encoded(m.outputID);
    Hex.DecodeEncode(m.outputID);
    hide Hex.Decode;
    hide Hex.Encode;
  }

  lemma OneMoreTolerated(m: Metadata, ls: seq<string>)
    requires AllTolerated(m, ls)
    ensures AllTolerated(m, ls + [""])
  {
    EmptyIsJunk();
    hide Junk;
  }

  lemma ReadWithLast(m: Metadata, ls: seq<string>)
    requires m.outputID != [] && AllTolerated(m, ls)
    requires Has(ls, OutputLine(m)) && Has(ls, SizeLine(m)) && Has(ls, TimeLine(m))
    ensures ReadLines(ls + [""]) == Fields(Hex.Encode(m.outputID), m.size, m.time)
  {
    OneMoreTolerated(m, ls);
    HasMore(ls, "", OutputLine(m));
    HasMore(ls, "", SizeLine(m));
    HasMore(ls, "", TimeLine(m));
    ReadToleratedLines(m, ls + [""]);
    hide *;
  }

  /**
    The three fields are read back from any file that has them, in any order, padded, repeated, or among other lines.
   */
  lemma LayoutDoesNotMatter(m: Metadata, ls: seq<string>)
    requires m.outputID != [] && AllTolerated(m, ls) && forall i :: 0 <= i < |ls| ==> OneLine(ls[i])
    requires Has(ls, OutputLine(m)) && Has(ls, SizeLine(m)) && Has(ls, TimeLine(m))
    ensures Parse(Unlines(ls)) == Some(m)
  {
    hide AllTolerated;
    hide OneLine;
    hide Has;
    hide ReadLines;
    hide Finish;
    hide Split;
    hide Unlines;
    SplitUnlines(ls);
    ReadWithLast(m, ls);
    FinishAll(m);
  }

  lemma FieldLine(s: string, name: string, value: string)
    requires s == name + value && name != "" && NoSpace(name) && NoSpace(value) && IsAscii(name) && IsAscii(value)
    ensures Trim(s) == s && OneLine(s) && IsAscii(s)
  {
    TrimPadded("", s, "");
    assert "" + s + "" == s;
    assert NoSpace(s);
  }

  lemma FieldNames()
    ensures NoSpace("outputID:") && NoSpace("size:") && NoSpace("time:")
    ensures IsAscii("outputID:") && IsAscii("size:") && IsAscii("time:")
  {
  }

  lemma FieldLines(m: Metadata)
    ensures Trim(OutputLine(m)) == OutputLine(m) && OneLine(OutputLine(m)) && IsAscii(OutputLine(m))
    ensures Trim(SizeLine(m)) == SizeLine(m) && OneLine(SizeLine(m)) && IsAscii(SizeLine(m))
    ensures Trim(TimeLine(m)) == TimeLine(m) && OneLine(TimeLine(m)) && IsAscii(TimeLine(m))
  {
    HexWord(m.outputID);
    Decimal.Printed(m.size);
    Decimal.Printed(m.time);
    FieldNames();
    hide NoSpace;
    hide IsAscii;
    hide OneLine;
    hide Trim;
    FieldLine(OutputLine(m), "outputID:", Hex.Encode(m.outputID));
    FieldLine(SizeLine(m), "size:", Decimal.Print(m.size));
    FieldLine(TimeLine(m), "time:", Decimal.Print(m.time));
  }

  /** What writeMetadata prints reads back as itself, unless the output ID is empty: then it never reads back. */
  lemma ParsePrint(m: Metadata)
    ensures Parse(Print(m)) == if m.outputID == [] then None else Some(m)
  {
    var ls := [OutputLine(m), SizeLine(m), TimeLine(m)];
    FieldLines(m);
    if m.outputID != [] {
      OwnLines(m, ls);
      hide *;
      LayoutDoesNotMatter(m, ls);
    } else {
      SplitUnlines(ls);
      NoOutputID(m, ls + [""]);
      hide ReadLines;
      hide Split;
      hide Unlines;
      hide Trim;
    }
  }

  /** The three printed lines are such lines. */
  lemma OwnLines(m: Metadata, ls: seq<string>)
    requires ls == [OutputLine(m), SizeLine(m), TimeLine(m)]
    ensures AllTolerated(m, ls) && forall i :: 0 <= i < |ls| ==> OneLine(ls[i])
    ensures Has(ls, OutputLine(m)) && Has(ls, SizeLine(m)) && Has(ls, TimeLine(m)) && Print(m) == Unlines(ls)
  {
    FieldLines(m);
    hide OutputLine;
    hide SizeLine;
    hide TimeLine;
    hide Trim;
    hide Junk;
    hide Unlines;
    hide OneLine;
    assert Trim(ls[0]) == OutputLine(m) && Trim(ls[1]) == SizeLine(m) && Trim(ls[2]) == TimeLine(m);
  }

  lemma NoOutputID(m: Metadata, all: seq<string>)
    requires m.outputID == [] && all == [OutputLine(m), SizeLine(m), TimeLine(m), ""]
    ensures ReadLines(all).hex == ""
  {
    FieldLines(m);
    assert all[..3] == [OutputLine(m), SizeLine(m), TimeLine(m)];
    assert all[..3][..2] == [OutputLine(m), SizeLine(m)];
    assert all[..3][..2][..1] == [OutputLine(m)];
    ReadOutputLine(START, all[0], m);
    ReadSizeLine(START, all[1], m);
    ReadTimeLine(ReadLines(all[..3][..2]), all[2], m);
    assert ReadLines([OutputLine(m)]) == START;
  }

  lemma {:induction false} UnlinesAscii(ls: seq<string>)
    requires forall i :: 0 <= i < |ls| ==> IsAscii(ls[i])
    ensures IsAscii(Unlines(ls))
  {
    if ls != [] {
      UnlinesAscii(ls[1..]);
    }
  }

  lemma FileRoundTrip(m: Metadata)
    ensures ParseBytes(Format(m)) == if m.outputID == [] then None else Some(m)
  {
    FieldLines(m);
    UnlinesAscii([OutputLine(m), SizeLine(m), TimeLine(m)]);
    BytesOfText(Print(m));
    ParsePrint(m);
  }

  lemma ThreeLines(a: string, b: string, c: string)
    ensures Unlines([a, b, c]) == a + "\n" + (b + "\n" + (c + "\n"))
  {
    assert [a, b, c][1..] == [b, c] && [b, c][1..] == [c] && [c][1..] == [];
    assert Unlines([c]) == c + "\n";
    assert Unlines([b, c]) == b + "\n" + Unlines([c]);
    assert Unlines([a, b, c]) == a + "\n" + Unlines([b, c]);
  }

  /** The file, byte for byte (localcache.go:84-88). */
  lemma FormatIs(m: Metadata)
    ensures Format(m) == ToBytes("outputID:" + Hex.Encode(m.outputID) + "\nsize:" + Decimal.Print(m.size) + "\ntime:"
                                 + Decimal.Print(m.time) + "\n")
  {
    var o, s, t := Hex.Encode(m.outputID), Decimal.Print(m.size), Decimal.Print(m.time);
    ThreeLines(OutputLine(m), SizeLine(m), TimeLine(m));
    hide Hex.Encode;
    hide Decimal.Print;
    hide Unlines;
    assert "\nsize:" == "\n" + "size:" && "\ntime:" == "\n" + "time:";
    assert Print(m) == "outputID:" + o + ("\n" + "size:") + s + ("\n" + "time:") + t + "\n";
  }

  /** Three lines that are read back, and a fourth that may be anything. */
  lemma FourLines(m: Metadata, line: string)
    requires m.outputID != [] && OneLine(line)
    ensures Parse(Print(m) + line) == Finish(ReadLine(Fields(Hex.Encode(m.outputID), m.size, m.time), line))
  {
    var ls := [OutputLine(m), SizeLine(m), TimeLine(m)];
    OwnLines(m, ls);
    hide Print;
    hide ReadLine;
    hide Finish;
    hide Split;
    hide Unlines;
    hide OutputLine;
    hide SizeLine;
    hide TimeLine;
    hide AllTolerated;
    hide OneLine;
    hide Has;
    hide Trim;
    SplitUnfinished(ls, line);
    assert (ls + [line])[..3] == ls;
    ReadToleratedLines(m, ls);
  }

  /** One more field, whose value has no white space. */
  lemma FieldAgain(name: string, word: string)
    requires name == "outputID:" || name == "size:" || name == "time:"
    requires NoSpace(word)
    ensures OneLine(name + word) && Trim(name + word) == name + word
    ensures (name + word)[..|name|] == name && (name + word)[|name|..] == word
  {
    FieldNames();
    var s := name + word;
    TrimPadded("", s, "");
    assert "" + s + "" == s;
  }

  lemma WordOf(word: string)
    requires word != "" && NoSpace(word)
    ensures ScanWord(word) == Some(word)
  {
    WordRunAll(word);
    assert TrimLeft(word) == word;
  }

  lemma SizeAgain(f: Fields, word: string)
    requires NoSpace(word)
    ensures OneLine("size:" + word)
    ensures ReadLine(f, "size:" + word) == match Decimal.Scan(word) case None => f case Some(n) => f.(size := n)
  {
    FieldAgain("size:", word);
    assert ("size:" + word)[0] == 's';
    hide Trim;
    hide Decimal.Scan;
    hide NoSpace;
    hide OneLine;
  }

  lemma TimeAgain(f: Fields, word: string)
    requires NoSpace(word)
    ensures OneLine("time:" + word)
    ensures ReadLine(f, "time:" + word) == match Decimal.Scan(word) case None => f case Some(n) => f.(time := n)
  {
    FieldAgain("time:", word);
    assert ("time:" + word)[0] == 't';
    hide Trim;
    hide Decimal.Scan;
    hide NoSpace;
    hide OneLine;
  }

  lemma OutputAgain(f: Fields, word: string)
    requires word != "" && NoSpace(word)
    ensures OneLine("outputID:" + word) && ReadLine(f, "outputID:" + word) == f.(hex := word)
  {
    FieldAgain("outputID:", word);
    WordOf(word);
    hide Trim;
    hide ScanWord;
    hide NoSpace;
    hide OneLine;
  }

  /**
    A fourth line: the later of two sizes or times counts, and one that is not a number leaves the earlier; an output
    ID that is not hexadecimal makes the whole file unreadable, though the one before it was good.
   */
  lemma LaterLine(m: Metadata, word: string)
    requires m.outputID != [] && word != "" && NoSpace(word)
    ensures Parse(Print(m) + ("size:" + word)) ==
      Some(match Decimal.Scan(word) case None => m case Some(n) => m.(size := n))
    ensures Parse(Print(m) + ("time:" + word)) ==
      Some(match Decimal.Scan(word) case None => m case Some(n) => m.(time := n))
    ensures Parse(Print(m) + ("outputID:" + word)) ==
      match Hex.Decode(word) case None => None case Some(o) => Some(m.(outputID := o))
  {
    var f := Fields(Hex.Encode(m.outputID), m.size, m.time);
    SizeAgain(f, word);
    TimeAgain(f, word);
    OutputAgain(f, word);
    FourLines(m, "size:" + word);
    FourLines(m, "time:" + word);
    FourLines(m, "outputID:" + word);
    Hex.DecodeEncode(m.outputID);
    Hex.Encoded(m.outputID);
    hide Parse;
    hide Print;
    hide ReadLine;
    hide Decimal.Scan;
    hide Hex.Decode;
    hide Hex.Encode;
    hide NoSpace;
    hide OneLine;
  }

  /** No two records have the same file. */
  lemma FormatIsInjective(a: Metadata, b: Metadata)
    requires a.outputID != [] && Format(a) == Format(b)
    ensures a == b
  {
    FileRoundTrip(a);
    FileRoundTrip(b);
  }

  /** A file of nothing but the first line. */
  lemma OnlyOutputLine(m: Metadata)
    requires m.outputID != []
    ensures Parse(OutputLine(m)) == Some(Metadata(m.outputID, 0, 0))
  {
    var s := OutputLine(m);
    FieldLines(m);
    SplitWord(s);
    assert [s][..0] == [];
    ReadOutputLine(START, s, m);
    assert ReadLines([s]) == Fields(Hex.Encode(m.outputID), 0, 0);
    FinishAll(Metadata(m.outputID, 0, 0));
  }

  /** The file up to the first byte of the output ID. */
  lemma CutAfterOneByte(m: Metadata)
    requires m.outputID != []
    ensures |Print(m)| > 11 && Print(m)[..11] == OutputLine(Metadata(m.outputID[..1], 0, 0))
  {
    Hex.EncodePrefix(m.outputID, 1);
    assert Print(m) == OutputLine(m) + ("\n" + Unlines([SizeLine(m), TimeLine(m)]));
    hide Unlines;
    assert OutputLine(m)[..11] == OutputLine(Metadata(m.outputID[..1], 0, 0));
  }

  /** A metadata file cut short can read as another, valid record: the rename is what keeps torn files out of sight. */
  lemma CutFileMisreads(m: Metadata) returns (n: nat)
    requires |m.outputID| > 1 || (m.outputID != [] && (m.size != 0 || m.time != 0))
    ensures n < |Print(m)| && Parse(Print(m)[..n]).Some? && Parse(Print(m)[..n]) != Some(m)
  {
    n := 11;
    CutAfterOneByte(m);
    OnlyOutputLine(Metadata(m.outputID[..1], 0, 0));
    hide Parse;
    hide Print;
  }

  /** Part of a line that says zero changes nothing when zero is what is known. */
  lemma ZeroLine(hex: string, name: string, j: nat)
    requires name == "size:" || name == "time:"
    requires j <= 6
    ensures ReadLine(Fields(hex, 0, 0), (name + "0")[..j]) == Fields(hex, 0, 0)
  {
    var f := (name + "0")[..j];
    TrimPadded("", name + "0", "");
    if j > 0 {
      TrimPadded("", f, "");
      assert "" + f + "" == f;
    }
    assert Trim(f) == f;
    if j == 5 {
      assert f == name && f[5..] == "";
    } else if j == 6 {
      assert f[5..] == "0" && Decimal.Print(0) == "0";
      ScanNumber(0);
    }
  }

  lemma NoBlanks(m: Metadata)
    ensures NoSpace(OutputLine(m))
  {
    HexWord(m.outputID);
  }

  /** A piece of a line without blanks is read as it is. */
  lemma TrimPiece(s: string, f: string)
    requires NoSpace(s) && f <= s
    ensures Trim(f) == f && NoSpace(f)
  {
    if f != "" {
      TrimPadded("", f, "");
      assert "" + f + "" == f;
    }
  }

  /** Part of the first line of a file with a one-byte output ID: its value counts when it is all there. */
  lemma CutOutputLine(m: Metadata, f: string)
    requires |m.outputID| == 1 && f <= OutputLine(m)
    ensures ReadLine(START, f) == if |f| > 9 then START.(hex := f[9..]) else START
  {
    NoBlanks(m);
    TrimPiece(OutputLine(m), f);
    assert f != "" ==> f[0] == 'o';
    assert |f| >= 9 ==> f[..9] == "outputID:";
    if |f| >= 9 {
      WordRunAll(f[9..]);
    }
    hide Trim;
    hide Hex.Encode;
  }

  lemma CutOutputLineRead(m: Metadata, f: string)
    requires |m.outputID| == 1 && f <= OutputLine(m)
    ensures Finish(ReadLine(START, f)).None? || Finish(ReadLine(START, f)) == Some(Metadata(m.outputID, 0, 0))
  {
    CutOutputLine(m, f);
    HexWord(m.outputID);
    assert |OutputLine(m)| == 11;
    if |f| == 11 {
      assert f == OutputLine(m) && f[9..] == Hex.Encode(m.outputID);
      FinishAll(Metadata(m.outputID, 0, 0));
    } else if |f| == 10 {
      assert |f[9..]| == 1;
    }
    hide ReadLine;
    hide Hex.Encode;
  }

  /** A file that states nothing but a one-byte output ID cannot be cut into another record. */
  lemma ShortFileIsSafe(m: Metadata, n: nat)
    requires |m.outputID| == 1 && m.size == 0 && m.time == 0 && n < |Print(m)|
    ensures Parse(Print(m)[..n]).None? || Parse(Print(m)[..n]) == Some(m)
  {
    var ls := [OutputLine(m), SizeLine(m), TimeLine(m)];
    FieldLines(m);
    var k, f := CutLines(ls, n);
    hide ReadLines;
    hide Finish;
    hide OutputLine;
    hide SizeLine;
    hide TimeLine;
    hide Unlines;
    hide OneLine;
    SplitUnfinished(ls[..k], f);
    assert Print(m)[..n] == Unlines(ls[..k]) + f;
    assert Parse(Print(m)[..n]) == Finish(ReadLines(ls[..k] + [f]));
    CutLinesRead(m, ls, k, f);
  }

  lemma ReadOneMore(ls: seq<string>, l: string)
    ensures ReadLines(ls + [l]) == ReadLine(ReadLines(ls), l)
  {
    assert (ls + [l])[..|ls|] == ls;
  }

  /** The lines of such a file, read one after the other. */
  lemma WholeLinesRead(m: Metadata)
    requires m.outputID != [] && m.size == 0 && m.time == 0
    ensures var known := Fields(Hex.Encode(m.outputID), 0, 0); var o := OutputLine(m); var s := SizeLine(m);
      var t := TimeLine(m);
      ReadLines([o]) == known && ReadLines([o, s]) == known && ReadLines([o, s, t]) == known
  {
    FieldLines(m);
    var o, s, t := OutputLine(m), SizeLine(m), TimeLine(m);
    assert [] + [o] == [o] && [o] + [s] == [o, s] && [o, s] + [t] == [o, s, t];
    ReadOneMore([], o);
    ReadOneMore([o], s);
    ReadOneMore([o, s], t);
    ReadOutputLine(START, o, m);
    ReadSizeLine(Fields(Hex.Encode(m.outputID), 0, 0), s, m);
    ReadTimeLine(Fields(Hex.Encode(m.outputID), 0, 0), t, m);
    assert ReadLines([]) == START;
    hide ReadLines;
    hide ReadLine;
    hide OutputLine;
    hide SizeLine;
    hide TimeLine;
    hide Hex.Encode;
  }

  /** Part of the second or third line. */
  lemma CutZeroLine(hex: string, name: string, f: string)
    requires (name == "size:" || name == "time:") && f <= name + "0"
    ensures ReadLine(Fields(hex, 0, 0), f) == Fields(hex, 0, 0)
  {
    assert f == (name + "0")[..|f|];
    ZeroLine(hex, name, |f|);
    hide ReadLine;
  }

  lemma ZeroLines(m: Metadata)
    requires m.size == 0 && m.time == 0
    ensures SizeLine(m) == "size:" + "0" && TimeLine(m) == "time:" + "0"
  {
    assert Decimal.Print(0) == "0";
  }

  lemma CutLinesRead(m: Metadata, ls: seq<string>, k: nat, f: string)
    requires |m.outputID| == 1 && m.size == 0 && m.time == 0 && ls == [OutputLine(m), SizeLine(m), TimeLine(m)]
    requires k <= 3 && (if k == 3 then f == "" else f <= ls[k])
    ensures Finish(ReadLines(ls[..k] + [f])).None? || Finish(ReadLines(ls[..k] + [f])) == Some(m)
  {
    var hex := Hex.Encode(m.outputID);
    ZeroLines(m);
    WholeLinesRead(m);
    FinishAll(m);
    ReadOneMore(ls[..k], f);
    assert ReadLines([]) == START;
    hide *;
    if k == 0 {
      assert ls[..0] == [];
      CutOutputLineRead(m, f);
    } else if k == 1 {
      assert ls[..1] == [OutputLine(m)];
      CutZeroLine(hex, "size:", f);
    } else {
      assert k == 2 ==> ls[..2] == [OutputLine(m), SizeLine(m)];
      assert k == 3 ==> ls[..3] == ls;
      CutZeroLine(hex, "time:", f);
    }
  }

  /**
    The rename is what keeps torn metadata out of sight: some strict prefix of the file reads as another record,
    unless the record is one byte of output ID with size and time zero.
   */
  lemma CutFileMisreadsIff(m: Metadata)
    requires m.outputID != []
    ensures (exists n: nat :: n < |Print(m)| && Misread(m, n)) <==> |m.outputID| > 1 || m.size != 0 || m.time != 0
  {
    hide Parse;
    hide Print;
    if |m.outputID| > 1 || m.size != 0 || m.time != 0 {
      var n := CutFileMisreads(m);
      assert Misread(m, n);
    } else {
      forall n: nat | n < |Print(m)| ensures !Misread(m, n) {
        ShortFileIsSafe(m, n);
      }
    }
  }

  /** The first n bytes of the file read as a record that is not m. */
  predicate Misread(m: Metadata, n: nat)
    requires n < |Print(m)|
  {
    Parse(Print(m)[..n]).Some? && Parse(Print(m)[..n]) != Some(m)
  }
}
