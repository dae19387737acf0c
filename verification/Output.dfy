/** sendResponse (server.go:663-681): any interleaving of senders leaves whole lines on stdout, each response once. */
module Output {
  import opened Basics
  import opened Text

  type Id = nat

  /** sendResponse's steps after marshalling. */
  datatype Pc = Waiting | Writing | Ending | Flushing | Unlocking | Sent

  /** `buffer` is bufio.Writer's; `order` lists the senders in the order in which they gave the writer back. */
  datatype State = State(holder: Option<Id>, buffer: string, stdout: string, pcs: map<Id, Pc>, order: seq<Id>)

  /** The buffer after `s` was written to it and the first `n` characters went out early because it was full. */
  function Put(st: State, s: string, n: nat): State {
    var all := st.buffer + s;
    var k := if n <= |all| then n else |all|;
    st.(buffer := all[k..], stdout := st.stdout + all[..k])
  }

  /** One action of sender `i`, whose marshalled response is lines[i]. */
  function Step(lines: map<Id, string>, st: State, i: Id, n: nat): Option<State> {
    if i !in st.pcs || i !in lines then None
    else
      match st.pcs[i]
      case Waiting => if st.holder.Some? then None else Some(st.(holder := Some(i), pcs := st.pcs[i := Writing]))
      case Writing => Some(Put(st, lines[i], n).(pcs := st.pcs[i := Ending]))
      case Ending => Some(Put(st, "\n", n).(pcs := st.pcs[i := Flushing]))
      case Flushing => Some(st.(buffer := "", stdout := st.stdout + st.buffer, pcs := st.pcs[i := Unlocking]))
      case Unlocking => Some(st.(holder := None, pcs := st.pcs[i := Sent], order := st.order + [i]))
      case Sent => None
  }

  datatype Move = Move(i: Id, n: nat)

  function Run(lines: map<Id, string>, st: State, ms: seq<Move>): Option<State>
    decreases |ms|
  {
    if ms == [] then Some(st)
    else
      var u := Step(lines, st, ms[0].i, ms[0].n);
      if u.None? then None else Run(lines, u.value, ms[1..])
  }

  function Texts(lines: map<Id, string>, order: seq<Id>): seq<string>
    requires forall k :: 0 <= k < |order| ==> order[k] in lines
  {
    seq(|order|, k requires 0 <= k < |order| => lines[order[k]])
  }

  /** What the holder has written of its line. */
  function Partial(line: string, pc: Pc): string {
    match pc
    case Ending => line
    case Flushing => line + "\n"
    case Unlocking => line + "\n"
    case _ => ""
  }

  predicate Holds(pc: Pc) {
    pc.Writing? || pc.Ending? || pc.Flushing? || pc.Unlocking?
  }

  predicate Known(lines: map<Id, string>, st: State) {
    && (forall k :: 0 <= k < |st.order| ==> st.order[k] in lines)
    && (st.holder.Some? ==> st.holder.value in lines && st.holder.value in st.pcs)
  }

  /** The writer's mutex and the order of sending agree with where the senders are. */
  predicate Ordered(st: State) {
    && (forall i :: i in st.pcs ==> (Holds(st.pcs[i]) <==> st.holder == Some(i)))
    && (forall i :: i in st.pcs ==> (st.pcs[i].Sent? <==> i in st.order))
    && (forall j, k :: 0 <= j < k < |st.order| ==> st.order[j] != st.order[k])
    && (forall k :: 0 <= k < |st.order| ==> st.order[k] in st.pcs)
  }

  /** stdout and the buffer together are the lines sent so far and the holder's part of its own. */
  predicate Content(lines: map<Id, string>, st: State)
    requires Known(lines, st)
  {
    && st.stdout + st.buffer == Unlines(Texts(lines, st.order)) +
         (if st.holder.Some? then Partial(lines[st.holder.value], st.pcs[st.holder.value]) else "")
    && (st.holder.None? || st.pcs[st.holder.value].Unlocking? || st.pcs[st.holder.value].Writing? ==> st.buffer == "")
  }

  predicate Inv(lines: map<Id, string>, st: State) {
    Known(lines, st) && Ordered(st) && Content(lines, st)
  }

  lemma {:induction false} UnlinesAppendOne(ls: seq<string>, l: string)
    ensures Unlines(ls + [l]) == Unlines(ls) + (l + "\n")
  {
    if ls == [] {
      assert Unlines([l]) == l + "\n" + "";
    } else {
      assert (ls + [l])[1..] == ls[1..] + [l];
      UnlinesAppendOne(ls[1..], l);
    }
  }

  lemma PutAppends(st: State, s: string, n: nat)
    ensures Put(st, s, n).stdout + Put(st, s, n).buffer == st.stdout + st.buffer + s
  {
    var all := st.buffer + s;
    var k := if n <= |all| then n else |all|;
    assert all[..k] + all[k..] == all;
    assert st.stdout + all[..k] + all[k..] == st.stdout + (all[..k] + all[k..]);
  }

  lemma StepKeepsOrder(lines: map<Id, string>, st: State, i: Id, n: nat)
    requires Known(lines, st) && Ordered(st) && Step(lines, st, i, n).Some?
    ensures Known(lines, Step(lines, st, i, n).value) && Ordered(Step(lines, st, i, n).value)
  {
    hide Put;
    PutFrame(st, lines[i], n);
    PutFrame(st, "\n", n);
  }

  lemma PutFrame(st: State, s: string, n: nat)
    ensures Put(st, s, n).(buffer := st.buffer, stdout := st.stdout) == st
  {
  }

  lemma UnlockKeepsContent(lines: map<Id, string>, st: State, i: Id, n: nat)
    requires Inv(lines, st) && i in st.pcs && st.pcs[i].Unlocking? && Step(lines, st, i, n).Some?
    requires Known(lines, Step(lines, st, i, n).value)
    ensures Content(lines, Step(lines, st, i, n).value)
  {
    var u := Step(lines, st, i, n).value;
    UnlinesAppendOne(Texts(lines, st.order), lines[i]);
    assert Texts(lines, u.order) == Texts(lines, st.order) + [lines[i]];
    hide Texts;
    assert u.stdout + u.buffer == st.stdout + st.buffer;
  }

  lemma WriteKeepsContent(lines: map<Id, string>, st: State, i: Id, n: nat)
    requires Inv(lines, st) && i in st.pcs && Step(lines, st, i, n).Some? && !st.pcs[i].Unlocking?
    requires !st.pcs[i].Waiting?
    requires Known(lines, Step(lines, st, i, n).value)
    ensures Content(lines, Step(lines, st, i, n).value)
  {
    var u := Step(lines, st, i, n).value;
    var sent := Unlines(Texts(lines, st.order));
    assert st.holder == Some(i) && st.stdout + st.buffer == sent + Partial(lines[i], st.pcs[i]);
    PutAppends(st, lines[i], n);
    PutAppends(st, "\n", n);
    PutFrame(st, lines[i], n);
    PutFrame(st, "\n", n);
    hide Put;
    hide Texts;
    hide Unlines;
    hide Ordered;
    assert u.stdout + u.buffer == sent + Partial(lines[i], u.pcs[i]);
  }

  lemma AcquireKeepsContent(lines: map<Id, string>, st: State, i: Id, n: nat)
    requires Inv(lines, st) && i in st.pcs && Step(lines, st, i, n).Some? && st.pcs[i].Waiting?
    requires Known(lines, Step(lines, st, i, n).value)
    ensures Content(lines, Step(lines, st, i, n).value)
  {
    hide Texts;
    hide Unlines;
  }

  lemma StepKeepsInv(lines: map<Id, string>, st: State, i: Id, n: nat)
    requires Inv(lines, st) && Step(lines, st, i, n).Some?
    ensures Inv(lines, Step(lines, st, i, n).value)
  {
    StepKeepsOrder(lines, st, i, n);
    hide Step;
    hide Content;
    hide Ordered;
    if st.pcs[i].Unlocking? {
      UnlockKeepsContent(lines, st, i, n);
    } else if st.pcs[i].Waiting? {
      AcquireKeepsContent(lines, st, i, n);
    } else {
      WriteKeepsContent(lines, st, i, n);
    }
  }

  lemma StepKeepsSenders(lines: map<Id, string>, st: State, i: Id, n: nat)
    requires Step(lines, st, i, n).Some?
    ensures Step(lines, st, i, n).value.pcs.Keys == st.pcs.Keys
  {
  }

  lemma {:induction false} RunKeepsInv(lines: map<Id, string>, st: State, ms: seq<Move>)
    requires Inv(lines, st) && Run(lines, st, ms).Some?
    ensures Inv(lines, Run(lines, st, ms).value) && Run(lines, st, ms).value.pcs.Keys == st.pcs.Keys
    decreases |ms|
  {
    hide Inv;
    if ms != [] {
      StepKeepsInv(lines, st, ms[0].i, ms[0].n);
      StepKeepsSenders(lines, st, ms[0].i, ms[0].n);
      RunKeepsInv(lines, Step(lines, st, ms[0].i, ms[0].n).value, ms[1..]);
    }
  }

  predicate Initial(lines: map<Id, string>, st: State) {
    && st.holder.None? && st.buffer == "" && st.stdout == "" && st.order == []
    && st.pcs.Keys == lines.Keys && forall i :: i in st.pcs ==> st.pcs[i].Waiting?
  }

  lemma InitialInv(lines: map<Id, string>, st: State)
    requires Initial(lines, st)
    ensures Inv(lines, st)
  {
    assert Texts(lines, st.order) == [];
  }

  /** While nobody holds the writer, everything written so far is whole lines and has left the buffer. */
  lemma WholeLinesBetween(lines: map<Id, string>, st: State, ms: seq<Move>)
    requires Initial(lines, st) && Run(lines, st, ms).Some? && Run(lines, st, ms).value.holder.None?
    ensures var u := Run(lines, st, ms).value;
      Known(lines, u) && u.stdout == Unlines(Texts(lines, u.order)) && u.buffer == ""
  {
    InitialInv(lines, st);
    hide Initial;
    RunKeepsInv(lines, st, ms);
    hide Run;
    hide Ordered;
    var u := Run(lines, st, ms).value;
    assert u.stdout + "" == u.stdout;
    assert Unlines(Texts(lines, u.order)) + "" == Unlines(Texts(lines, u.order));
  }

  /**
    Once every sender is done, stdout is made of whole lines only, and splitting it at newlines gives back every
    response exactly once.
   */
  lemma WholeLines(lines: map<Id, string>, st: State, ms: seq<Move>)
    requires Initial(lines, st) && Run(lines, st, ms).Some?
    requires forall i :: i in lines ==> OneLine(lines[i])
    requires forall i :: i in Run(lines, st, ms).value.pcs ==> Run(lines, st, ms).value.pcs[i].Sent?
    ensures var u := Run(lines, st, ms).value;
      && (forall i :: i in lines <==> i in u.order)
      && (forall j, k :: 0 <= j < k < |u.order| ==> u.order[j] != u.order[k])
      && Split(u.stdout) == Texts(lines, u.order) + [""]
  {
    InitialInv(lines, st);
    assert st.pcs.Keys == lines.Keys;
    RunKeepsInv(lines, st, ms);
    var u := Run(lines, st, ms).value;
    assert u.holder.None?;
    WholeLinesBetween(lines, st, ms);
    hide Initial;
    hide Run;
    hide Content;
    SplitUnlines(Texts(lines, u.order));
  }

  // ---------------------------------------------------------------- the code

  /** bufio.Writer over stdout. */
  class Writer {
    const size: nat
    var buffer: string
    var stdout: string

    constructor (size: nat)
      ensures this.size == size && buffer == "" && stdout == ""
    {
      this.size := size;
      buffer, stdout := "", "";
    }

    method Flush()
      modifies this
      ensures buffer == "" && stdout == old(stdout) + old(buffer)
    {
      stdout := stdout + buffer;
      buffer := "";
    }

    method Write(s: string)
      modifies this
      ensures stdout + buffer == old(stdout) + old(buffer) + s
    {
      assert stdout + (buffer + s) == stdout + buffer + s;
      buffer := buffer + s;
      if |buffer| > size {
        Flush();
        assert stdout + buffer == stdout;
      }
    }

    method SendResponse(data: string)
      requires buffer == ""
      modifies this
      ensures buffer == "" && stdout == old(stdout) + (data + "\n")
    {
      Write(data);
      assert old(stdout) + old(buffer) == old(stdout);
      Write("\n");
      Flush();
    }
  }
}
