/** The answers of a process in the step machine, as they arrive on its stdout. */
module Stdout {
  import opened Basics
  import opened Text
  import P = Protocol
  import Output

  /** The lines that the senders of a process's answers write; `marshal` is JSON. */
  function LinesFor(out: seq<P.Answer>, marshal: P.Response -> string): map<nat, string> {
    map i: nat | i < |out| :: marshal(out[i].response)
  }

  /** The responses at the given positions, printed. */
  function Printed(out: seq<P.Answer>, marshal: P.Response -> string, order: seq<nat>): seq<string> {
    seq(|order|, k requires 0 <= k < |order| =>
      if order[k] < |out| then marshal(out[order[k]].response) else "")
  }

  /**
    Whatever the senders' interleaving, once they are done stdout splits into one line per answer: `order` lists every
    answer once.
   */
  lemma EveryAnswerIsALine(out: seq<P.Answer>, marshal: P.Response -> string, st: Output.State, ms: seq<Output.Move>)
      returns (order: seq<nat>)
    requires forall a: P.Response :: OneLine(marshal(a))
    requires Output.Initial(LinesFor(out, marshal), st) && Output.Run(LinesFor(out, marshal), st, ms).Some?
    requires var u := Output.Run(LinesFor(out, marshal), st, ms).value; forall i :: i in u.pcs ==> u.pcs[i].Sent?
    ensures forall i: nat :: i < |out| <==> i in order
    ensures forall j, k :: 0 <= j < k < |order| ==> order[j] != order[k]
    ensures Split(Output.Run(LinesFor(out, marshal), st, ms).value.stdout) == Printed(out, marshal, order) + [""]
  {
    var lines := LinesFor(out, marshal);
    Output.WholeLines(lines, st, ms);
    order := Output.Run(lines, st, ms).value.order;
    assert Output.Texts(lines, order) == Printed(out, marshal, order);
  }
}
