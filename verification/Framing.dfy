/**
  The request stream (server.go:692-751): one JSON line per request, a second line with the base64 body after a PUT
  that announces one, blank lines anywhere between. The stream is the bytes of stdin as a string.
 */
module Framing {
  import opened Basics
  import opened Text
  import opened Protocol
  import Base64

  /** The JSON object of a request; the body travels on its own line. */
  datatype Wire = Wire(rid: int64, cmd: Cmd, actionID: ActionID, outputID: Bytes, bodySize: int64)

  /** encoding/json on the two kinds of lines. */
  datatype Json = Json(printRequest: Wire -> string, parseRequest: string -> Option<Wire>,
                       printText: string -> string, parseText: string -> Option<string>)

  /** One non-blank line per value, which parses back. */
  ghost predicate Faithful(j: Json) {
    && (forall w: Wire :: j.parseRequest(j.printRequest(w)) == Some(w) && IsLine(j.printRequest(w)))
    && (forall t: string :: j.parseText(j.printText(t)) == Some(t) && IsLine(j.printText(t)))
  }

  predicate IsBlank(l: string) {
    Trim(l) == ""
  }

  predicate IsLine(l: string) {
    OneLine(l) && !IsBlank(l)
  }

  // ---------------------------------------------------------------- reading

  datatype Line = Line(text: string, rest: string)

  /** bufio.Reader.ReadBytes('\n') with the newline removed; None when the input ends first. */
  function ReadBytes(s: string): (r: Option<Line>)
    ensures r.Some? ==> |r.value.rest| < |s|
  {
    if s == "" then None
    else if s[0] == '\n' then Some(Line("", s[1..]))
    else
      var r := ReadBytes(s[1..]);
      if r.None? then None else Some(Line([s[0]] + r.value.text, r.value.rest))
  }

  /** readLine: blank lines are skipped. */
  function ReadLine(s: string): (r: Option<Line>)
    ensures r.Some? ==> |r.value.rest| < |s|
    decreases |s|
  {
    var l := ReadBytes(s);
    if l.None? || !IsBlank(l.value.text) then l else ReadLine(l.value.rest)
  }

  datatype Outcome = Got(req: Request, rest: string) | Eof | Malformed

  /** readRequest */
  function ReadRequest(j: Json, s: string): (r: Outcome)
    ensures r.Got? ==> |r.rest| < |s|
  {
    var l := ReadLine(s);
    if l.None? then Eof
    else
      var w := j.parseRequest(l.value.text);
      if w.None? then Malformed
      else if w.value.cmd == CmdPut && w.value.bodySize > 0 then
        var b := ReadLine(l.value.rest);
        if b.None? then Eof
        else
          var t := j.parseText(b.value.text);
          if t.None? || Base64.Decode(t.value).None? then Malformed
          else Got(RequestOf(w.value, Base64.Decode(t.value)), b.value.rest)
      else Got(RequestOf(w.value, None), l.value.rest)
  }

  function RequestOf(w: Wire, body: Option<Bytes>): Request {
    Request(w.rid, w.cmd, w.actionID, w.outputID, body, w.bodySize)
  }

  /** Everything repeated readRequest delivers, and whether the stream ended without an error. */
  datatype Session = Session(reqs: seq<Request>, clean: bool)

  function ReadAll(j: Json, s: string): Session
    decreases |s|
  {
    match ReadRequest(j, s)
    case Eof => Session([], true)
    case Malformed => Session([], false)
    case Got(r, rest) =>
      var more := ReadAll(j, rest);
      Session([r] + more.reqs, more.clean)
  }

  lemma ReadAllStep(j: Json, s: string)
    ensures var r := ReadRequest(j, s);
      ReadAll(j, s) == if !r.Got? then Session([], r.Eof?)
        else Session([r.req] + ReadAll(j, r.rest).reqs, ReadAll(j, r.rest).clean)
  {
  }

  /** Every request that is read has a body exactly when it is a PUT of positive size. */
  lemma {:induction false} DeliveredAreFramed(j: Json, s: string)
    ensures forall i :: 0 <= i < |ReadAll(j, s).reqs| ==>
      var r := ReadAll(j, s).reqs[i];
      Framed(r) && (r.body.Some? <==> r.cmd == CmdPut && r.bodySize > 0)
    decreases |s|
  {
    var r := ReadRequest(j, s);
    if r.Got? {
      DeliveredAreFramed(j, r.rest);
    }
  }

  // ---------------------------------------------------------------- printing

  /** A request as printed: blank lines, the request line, and for a body more blank lines and the body line. */
  datatype Item = Item(before: seq<string>, req: Request, between: seq<string>, text: string)

  function WireOf(r: Request): Wire {
    Wire(r.rid, r.cmd, r.actionID, r.outputID, r.bodySize)
  }

  predicate Blanks(ls: seq<string>) {
    forall i :: 0 <= i < |ls| ==> OneLine(ls[i]) && IsBlank(ls[i])
  }

  /** The body text is base64 of the body, possibly broken into lines. */
  predicate Printable(it: Item) {
    && Blanks(it.before) && Blanks(it.between)
    && (it.req.body.Some? <==> it.req.cmd == CmdPut && it.req.bodySize > 0)
    && (it.req.body.Some? ==> Base64.Strip(it.text) == Base64.Encode(it.req.body.value))
  }

  predicate AllPrintable(its: seq<Item>) {
    forall i :: 0 <= i < |its| ==> Printable(its[i])
  }

  function LinesOf(j: Json, it: Item): seq<string> {
    it.before + [j.printRequest(WireOf(it.req))] + if it.req.body.Some? then it.between + [j.printText(it.text)] else []
  }

  function AllLines(j: Json, its: seq<Item>): seq<string> {
    if its == [] then [] else LinesOf(j, its[0]) + AllLines(j, its[1..])
  }

  function Requests(its: seq<Item>): seq<Request> {
    if its == [] then [] else [its[0].req] + Requests(its[1..])
  }

  // ---------------------------------------------------------------- lines

  lemma {:induction false} ReadOneLine(l: string, rest: string)
    requires OneLine(l)
    ensures ReadBytes(l + "\n" + rest) == Some(Line(l, rest))
  {
    if l == "" {
      assert (l + "\n" + rest)[1..] == rest;
    } else {
      assert (l + "\n" + rest)[1..] == l[1..] + "\n" + rest;
      ReadOneLine(l[1..], rest);
      assert [l[0]] + l[1..] == l;
    }
  }

  lemma {:induction false} ReadFragment(f: string)
    requires OneLine(f)
    ensures ReadBytes(f).None?
  {
    if f != "" {
      ReadFragment(f[1..]);
    }
  }

  lemma {:induction false} SkipBlanks(ls: seq<string>, s: string)
    requires Blanks(ls)
    ensures ReadLine(Unlines(ls) + s) == ReadLine(s)
  {
    if ls == [] {
      assert Unlines(ls) + s == s;
    } else {
      assert Unlines(ls) + s == ls[0] + "\n" + (Unlines(ls[1..]) + s);
      ReadOneLine(ls[0], Unlines(ls[1..]) + s);
      SkipBlanks(ls[1..], s);
    }
  }

  lemma {:induction false} UnlinesAppend(a: seq<string>, b: seq<string>)
    ensures Unlines(a + b) == Unlines(a) + Unlines(b)
  {
    if a == [] {
      assert a + b == b;
    } else {
      assert (a + b)[1..] == a[1..] + b;
      UnlinesAppend(a[1..], b);
    }
  }

  /** The next line after any blank ones. */
  lemma ReadPast(ls: seq<string>, l: string, rest: string)
    requires Blanks(ls) && IsLine(l)
    ensures ReadLine(Unlines(ls + [l]) + rest) == Some(Line(l, rest))
  {
    UnlinesAppend(ls, [l]);
    assert Unlines([l]) == l + "\n";
    assert Unlines(ls + [l]) + rest == Unlines(ls) + (l + "\n" + rest);
    SkipBlanks(ls, l + "\n" + rest);
    ReadOneLine(l, rest);
  }

  /** Blank lines and an unterminated one: end of input. */
  lemma ReadNothing(ls: seq<string>, f: string)
    requires Blanks(ls) && OneLine(f)
    ensures ReadLine(Unlines(ls) + f).None?
  {
    SkipBlanks(ls, f);
    ReadFragment(f);
  }

  // ---------------------------------------------------------------- one request

  lemma ReadItem(j: Json, it: Item, rest: string)
    requires Faithful(j) && Printable(it)
    ensures ReadRequest(j, Unlines(LinesOf(j, it)) + rest) == Got(it.req, rest)
  {
    var w := WireOf(it.req);
    var l := j.printRequest(w);
    assert IsLine(l) && j.parseRequest(l) == Some(w);
    if it.req.body.None? {
      assert LinesOf(j, it) == it.before + [l];
      ReadPast(it.before, l, rest);
    } else {
      var b := j.printText(it.text);
      assert IsLine(b) && j.parseText(b) == Some(it.text);
      var tail := Unlines(it.between + [b]) + rest;
      assert LinesOf(j, it) == (it.before + [l]) + (it.between + [b]);
      UnlinesAppend(it.before + [l], it.between + [b]);
      assert Unlines(LinesOf(j, it)) + rest == Unlines(it.before + [l]) + tail;
      ReadPast(it.before, l, tail);
      ReadPast(it.between, b, rest);
      Base64.DecodeEncode(it.req.body.value, it.text);
    }
  }

  /** After a request that announces no body the next request line follows at once: nothing more is read. */
  lemma NoBodyLine(j: Json, w: Wire, rest: string)
    requires Faithful(j) && (w.cmd != CmdPut || w.bodySize <= 0)
    ensures ReadRequest(j, j.printRequest(w) + "\n" + rest) ==
      Got(Request(w.rid, w.cmd, w.actionID, w.outputID, None, w.bodySize), rest)
  {
    var l := j.printRequest(w);
    assert IsLine(l) && j.parseRequest(l) == Some(w);
    ReadPast([], l, rest);
    assert Unlines([] + [l]) == l + "\n";
  }

  /**
    The next line: the first one that is not blank, found exactly when some line that is ended is not blank; only blank
    lines come before it.
   */
  lemma {:induction false} ReadLineFinds(s: string) returns (before: seq<string>, f: string)
    ensures Blanks(before)
    ensures match ReadLine(s)
      case Some(l) => IsLine(l.text) && s == Unlines(before + [l.text]) + l.rest
      case None => OneLine(f) && s == Unlines(before) + f
    decreases |s|
  {
    f := "";
    var l := ReadBytes(s);
    ReadBytesFinds(s);
    hide ReadBytes;
    if l.None? {
      before, f := [], s;
    } else if IsBlank(l.value.text) {
      before, f := ReadLineFinds(l.value.rest);
      var first := [l.value.text];
      if ReadLine(s).Some? {
        var t := ReadLine(s).value;
        assert first + before + [t.text] == first + (before + [t.text]);
        UnlinesAppend(first, before + [t.text]);
        assert s == Unlines(first) + (Unlines(before + [t.text]) + t.rest);
      } else {
        UnlinesAppend(first, before);
        assert s == Unlines(first) + (Unlines(before) + f);
      }
      before := first + before;
    } else {
      before := [];
      assert before + [l.value.text] == [l.value.text];
    }
  }

  lemma {:induction false} ReadBytesFinds(s: string)
    ensures match ReadBytes(s)
      case Some(l) => OneLine(l.text) && s == Unlines([l.text]) + l.rest
      case None => OneLine(s)
  {
    if s != "" && s[0] != '\n' {
      ReadBytesFinds(s[1..]);
      assert s == [s[0]] + s[1..];
      var l := ReadBytes(s);
      if l.Some? {
        assert s == [s[0]] + (Unlines([ReadBytes(s[1..]).value.text]) + l.value.rest);
      }
    }
  }

  /**
    What is read from any input whatever whose next line is `l`: the request if the line parses and announces no body,
    and otherwise the request with the decoded body of the line after it, if there is one and it decodes.
   */
  lemma ReadRequestIs(j: Json, before: seq<string>, l: string, rest: string)
    requires Blanks(before) && IsLine(l)
    ensures ReadRequest(j, Unlines(before + [l]) + rest) ==
      match j.parseRequest(l)
      case None => Malformed
      case Some(w) =>
        if w.cmd == CmdPut && w.bodySize > 0 then BodyFrom(j, w, ReadLine(rest))
        else Got(Request(w.rid, w.cmd, w.actionID, w.outputID, None, w.bodySize), rest)
  {
    ReadPast(before, l, rest);
  }

  /** The request `w` with the body in the line that follows it. */
  function BodyFrom(j: Json, w: Wire, l: Option<Line>): Outcome {
    if l.None? then Eof
    else
      match j.parseText(l.value.text)
      case None => Malformed
      case Some(t) =>
        match Base64.Decode(t)
        case None => Malformed
        case Some(b) => Got(Request(w.rid, w.cmd, w.actionID, w.outputID, Some(b), w.bodySize), l.value.rest)
  }

  /** A request whose lines are not all there is not delivered. */
  lemma ReadPartialItem(j: Json, it: Item, k: nat, f: string)
    requires Faithful(j) && Printable(it) && k < |LinesOf(j, it)| && OneLine(f)
    ensures ReadRequest(j, Unlines(LinesOf(j, it)[..k]) + f) == Eof
  {
    var w := WireOf(it.req);
    var l := j.printRequest(w);
    assert IsLine(l) && j.parseRequest(l) == Some(w);
    var n := |it.before|;
    if k <= n {
      assert LinesOf(j, it)[..k] == it.before[..k];
      ReadNothing(it.before[..k], f);
    } else {
      var more := it.between[..k - n - 1];
      assert LinesOf(j, it)[..k] == (it.before + [l]) + more;
      UnlinesAppend(it.before + [l], more);
      assert Unlines(LinesOf(j, it)[..k]) + f == Unlines(it.before + [l]) + (Unlines(more) + f);
      ReadPast(it.before, l, Unlines(more) + f);
      ReadNothing(more, f);
    }
  }

  // ---------------------------------------------------------------- the whole stream

  /** The requests all of whose lines are among the first `k`. */
  function Completed(j: Json, its: seq<Item>, k: nat): seq<Request> {
    if its == [] || k < |LinesOf(j, its[0])| then []
    else [its[0].req] + Completed(j, its[1..], k - |LinesOf(j, its[0])|)
  }

  lemma ReadAllItem(j: Json, it: Item, rest: string)
    requires Faithful(j) && Printable(it)
    ensures ReadAll(j, Unlines(LinesOf(j, it)) + rest) ==
      Session([it.req] + ReadAll(j, rest).reqs, ReadAll(j, rest).clean)
  {
    ReadItem(j, it, rest);
    ReadAllStep(j, Unlines(LinesOf(j, it)) + rest);
    hide *;
  }

  /** The first item is complete: its lines come first, then those of the others. */
  lemma LinesSplit(j: Json, its: seq<Item>, k: nat, f: string)
    requires its != [] && |LinesOf(j, its[0])| <= k <= |AllLines(j, its)|
    ensures var n := |LinesOf(j, its[0])|; k - n <= |AllLines(j, its[1..])|
    ensures var n := |LinesOf(j, its[0])|;
      Unlines(AllLines(j, its)[..k]) + f == Unlines(LinesOf(j, its[0])) + (Unlines(AllLines(j, its[1..])[..k - n]) + f)
  {
    hide LinesOf;
    hide Unlines;
    var ls := LinesOf(j, its[0]);
    var rest := AllLines(j, its[1..])[..k - |ls|];
    assert AllLines(j, its)[..k] == ls + rest;
    UnlinesAppend(ls, rest);
    assert (Unlines(ls) + Unlines(rest)) + f == Unlines(ls) + (Unlines(rest) + f);
  }

  /** However many lines have arrived, and whatever part of the next, exactly the complete requests are delivered. */
  lemma {:induction false} ReadLinesSoFar(j: Json, its: seq<Item>, k: nat, f: string)
    requires Faithful(j) && AllPrintable(its) && k <= |AllLines(j, its)| && OneLine(f)
    ensures ReadAll(j, Unlines(AllLines(j, its)[..k]) + f) == Session(Completed(j, its, k), true)
    decreases |its|
  {
    hide Faithful;
    hide LinesOf;
    hide Printable;
    hide Unlines;
    hide ReadAll;
    if its == [] {
      ReadNoItem(j, f);
    } else if k < |LinesOf(j, its[0])| {
      assert AllLines(j, its)[..k] == LinesOf(j, its[0])[..k];
      ReadPartialItem(j, its[0], k, f);
      ReadAllStep(j, Unlines(AllLines(j, its)[..k]) + f);
    } else {
      var n := |LinesOf(j, its[0])|;
      LinesSplit(j, its, k, f);
      ReadAllItem(j, its[0], Unlines(AllLines(j, its[1..])[..k - n]) + f);
      ReadLinesSoFar(j, its[1..], k - n, f);
    }
  }

  lemma ReadNoItem(j: Json, f: string)
    requires OneLine(f)
    ensures ReadAll(j, Unlines([]) + f) == Session([], true)
  {
    ReadNothing([], f);
  }

  lemma {:induction false} AllCompleted(j: Json, its: seq<Item>)
    ensures Completed(j, its, |AllLines(j, its)|) == Requests(its)
  {
    if its != [] {
      AllCompleted(j, its[1..]);
    }
  }

  /** Every printed request sequence reads back as itself, then end of input; an unterminated last line adds nothing. */
  lemma StreamRoundTrip(j: Json, its: seq<Item>, f: string)
    requires Faithful(j) && AllPrintable(its) && OneLine(f)
    ensures ReadAll(j, Unlines(AllLines(j, its)) + f) == Session(Requests(its), true)
  {
    var ls := AllLines(j, its);
    assert ls[..|ls|] == ls;
    ReadLinesSoFar(j, its, |ls|, f);
    AllCompleted(j, its);
  }

  lemma {:induction false} AllOneLine(j: Json, its: seq<Item>)
    requires Faithful(j) && AllPrintable(its)
    ensures forall i :: 0 <= i < |AllLines(j, its)| ==> OneLine(AllLines(j, its)[i])
  {
    if its != [] {
      AllOneLine(j, its[1..]);
      assert Printable(its[0]);
      assert IsLine(j.printRequest(WireOf(its[0].req))) && IsLine(j.printText(its[0].text));
    }
  }

  /**
    A stream that breaks off after any number of bytes delivers exactly the requests whose last line, newline
    included, had arrived, and then ends without an error.
   */
  lemma StreamCutAnywhere(j: Json, its: seq<Item>, n: nat) returns (k: nat)
    requires Faithful(j) && AllPrintable(its) && n <= |Unlines(AllLines(j, its))|
    ensures k <= |AllLines(j, its)| && |Unlines(AllLines(j, its)[..k])| <= n
    ensures k < |AllLines(j, its)| ==> n < |Unlines(AllLines(j, its)[..k + 1])|
    ensures ReadAll(j, Unlines(AllLines(j, its))[..n]) == Session(Completed(j, its, k), true)
  {
    AllOneLine(j, its);
    var f;
    k, f := CutLines(AllLines(j, its), n);
    ReadLinesSoFar(j, its, k, f);
  }

  // ---------------------------------------------------------------- the reader

  /** CacheProg's reader over stdin. */
  class Reader {
    const json: Json
    var input: string

    constructor (json: Json, input: string)
      ensures this.json == json && this.input == input
    {
      this.json := json;
      this.input := input;
    }

    /** bufio.Reader.ReadBytes('\n'); at end of input the unterminated rest is consumed and dropped. */
    method NextLine() returns (line: Option<string>)
      modifies this
      ensures match ReadBytes(old(input))
        case None => line.None? && input == ""
        case Some(l) => line == Some(l.text) && input == l.rest
    {
      var i := 0;
      assert input[0..] == input;
      while i < |input| && input[i] != '\n'
        invariant 0 <= i <= |input| && input == old(input)
        invariant forall k :: 0 <= k < i ==> input[k] != '\n'
        decreases |input| - i
      {
        i := i + 1;
      }
      if i == |input| {
        ReadFragment(input);
        line, input := None, "";
      } else {
        assert input == input[..i] + "\n" + input[i + 1..];
        ReadOneLine(input[..i], input[i + 1..]);
        line, input := Some(input[..i]), input[i + 1..];
      }
    }

    method NextNonBlank() returns (line: Option<string>)
      modifies this
      ensures match ReadLine(old(input))
        case None => line.None? && input == ""
        case Some(l) => line == Some(l.text) && input == l.rest
    {
      line := NextLine();
      while line.Some? && IsBlank(line.value)
        invariant line.Some? ==> |input| < |old(input)|
        invariant line.None? ==> input == "" && ReadLine(old(input)).None?
        invariant line.Some? ==>
          ReadLine(old(input)) == if IsBlank(line.value) then ReadLine(input) else Some(Line(line.value, input))
        decreases |input|, line.Some?
      {
        line := NextLine();
      }
    }

    method NextRequest() returns (r: Outcome)
      modifies this
      ensures r == ReadRequest(json, old(input))
      ensures r.Got? ==> input == r.rest
    {
      var line := NextNonBlank();
      if line.None? {
        return Eof;
      }
      var w := json.parseRequest(line.value);
      if w.None? {
        return Malformed;
      }
      if !(w.value.cmd == CmdPut && w.value.bodySize > 0) {
        return Got(RequestOf(w.value, None), input);
      }
      var bodyLine := NextNonBlank();
      if bodyLine.None? {
        return Eof;
      }
      var text := json.parseText(bodyLine.value);
      if text.None? {
        return Malformed;
      }
      var body := Base64.Decode(text.value);
      if body.None? {
        return Malformed;
      }
      return Got(RequestOf(w.value, body), input);
    }

    /**
      The reading half of Run: requests are handed out until the input ends, a line is malformed, or a close arrives.
     */
    method ReadUntilClose() returns (started: seq<Request>, close: Option<Request>, clean: bool)
      modifies this
      ensures forall i :: 0 <= i < |started| ==> started[i].cmd != CmdClose
      ensures var all := ReadAll(json, old(input));
        if close.Some? then close.value.cmd == CmdClose && started + [close.value] <= all.reqs
        else started == all.reqs && clean == all.clean
    {
      hide ReadAll;
      hide ReadRequest;
      started, close, clean := [], None, true;
      ghost var all := ReadAll(json, input);
      ghost var rest := all;
      assert started + rest.reqs == all.reqs;
      while true
        invariant close.None? && rest == ReadAll(json, input)
        invariant started + rest.reqs == all.reqs && rest.clean == all.clean
        invariant forall i :: 0 <= i < |started| ==> started[i].cmd != CmdClose
        decreases |input|
      {
        ReadAllStep(json, input);
        var r := NextRequest();
        if !r.Got? {
          return started, None, r.Eof?;
        }
        rest := ReadAll(json, input);
        assert started + [r.req] + rest.reqs == all.reqs;
        if r.req.cmd == CmdClose {
          return started, Some(r.req), true;
        }
        started := started + [r.req];
      }
    }
  }
}
