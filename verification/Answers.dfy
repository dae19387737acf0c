/** Exactly one response per request, and the response to close comes last. */
module Answers {
  import opened Basics
  import opened Disk
  import opened Protocol
  import opened Exclusion

  predicate IsAnswered(out: seq<Answer>, i: nat) {
    exists k :: 0 <= k < |out| && out[k].index == i
  }

  predicate ClosePending(p: Proc) {
    p.phase.Draining? || p.phase.Closing? || p.phase.Replying?
  }

  /** How many requests have been handed out to be answered: all that were read, except a close still in progress. */
  function Served(p: Proc): nat {
    if ClosePending(p) && p.next > 0 then p.next - 1 else p.next
  }

  predicate OutDistinct(out: seq<Answer>) {
    forall k, l :: 0 <= k < l < |out| ==> out[k].index != out[l].index
  }

  predicate OutMatches(p: Proc) {
    forall k :: 0 <= k < |p.out| ==>
      p.out[k].index < Served(p) <= |p.input| && p.out[k].response.rid == p.input[p.out[k].index].rid
  }

  /** Every request handed out is either answered or in the hands of exactly one handler. */
  predicate Accounted(p: Proc, pid: nat, threads: Threads) {
    forall i :: 0 <= i < Served(p) ==> (IsAnswered(p.out, i) <==> Tid(pid, i) !in threads)
  }

  predicate EndOk(p: Proc) {
    && (ClosePending(p) ==> 0 < p.next <= |p.input| && p.input[p.next - 1].cmd.CmdClose?)
    && (p.phase.Exiting? ==> p.next == |p.input|)
    && (p.phase.Done? ==> p.next == |p.input| || ClosedLast(p))
  }

  /** The last request read was a close, and its answer is the last response. */
  predicate ClosedLast(p: Proc) {
    && 0 < p.next <= |p.input| && p.input[p.next - 1].cmd.CmdClose?
    && |p.out| > 0 && p.out[|p.out| - 1].index == p.next - 1
  }

  predicate ProcAnswers(p: Proc, pid: nat, threads: Threads) {
    && OutDistinct(p.out) && OutMatches(p) && EndOk(p)
    && (!p.phase.Dead? ==> Accounted(p, pid, threads))
    && (!p.phase.Booting? && !p.phase.Dead? ==> p.greeted)
  }

  predicate AnswerInv(cfg: Config, s: State) {
    Base(cfg, s) && forall pid :: pid in s.procs ==> ProcAnswers(s.procs[pid], pid, s.threads)
  }

  lemma AppendAnswer(out: seq<Answer>, a: Answer, i: nat)
    ensures IsAnswered(out + [a], i) <==> IsAnswered(out, i) || a.index == i
    ensures OutDistinct(out) && !IsAnswered(out, a.index) ==> OutDistinct(out + [a])
  {
    var l := out + [a];
    assert l[|out|] == a;
    if IsAnswered(out, i) {
      var k :| 0 <= k < |out| && out[k].index == i;
      assert l[k].index == i;
    }
  }

  /** A handler that answers leaves the books balanced. */
  lemma GoneAnswers(cfg: Config, p: Proc, tid: Tid, threads: Threads, e: Effect)
    requires tid in threads && ThreadOwned(p, tid.index, threads[tid]) && ProcAnswers(p, tid.pid, threads)
    requires e.t.pc.Gone?
    ensures ProcAnswers(AfterMove(cfg, p, tid, threads[tid], e), tid.pid, threads - {tid})
  {
    var t := threads[tid];
    var a := Answer(tid.index, ResponseOf(cfg, t.req, t.result), PromiseOf(t.result));
    var q := AfterMove(cfg, p, tid, t, e);
    assert tid == Tid(tid.pid, tid.index);
    assert tid.index < Served(p) by {
      assert ClosePending(p) ==> p.input[p.next - 1].cmd.CmdClose?;
    }
    forall i | 0 <= i < Served(q) ensures IsAnswered(q.out, i) <==> Tid(tid.pid, i) !in threads - {tid} {
      AppendAnswer(p.out, a, i);
    }
    AppendAnswer(p.out, a, tid.index);
  }

  lemma StayAnswers(cfg: Config, p: Proc, tid: Tid, threads: Threads, e: Effect)
    requires tid in threads && ProcAnswers(p, tid.pid, threads) && !e.t.pc.Gone?
    ensures ProcAnswers(AfterMove(cfg, p, tid, threads[tid], e), tid.pid, threads[tid := e.t])
  {
    var q := AfterMove(cfg, p, tid, threads[tid], e);
    assert q == p.(tokens := q.tokens, wg := q.wg, started := q.started);
    SameAnswers(p, q, tid.pid, threads);
    hide AfterMove;
    OtherAnswers(q, tid.pid, threads, threads[tid := e.t]);
  }

  lemma CommitAnswers(cfg: Config, s: State, tid: Tid, e: Effect)
    requires AnswerInv(cfg, s) && tid in s.threads && Moves(cfg, s.threads[tid], e)
    ensures var u := Commit(cfg, s, tid, e); forall pid :: pid in u.procs ==> ProcAnswers(u.procs[pid], pid, u.threads)
  {
    hide ProcAnswers;
    var u := Commit(cfg, s, tid, e);
    assert ThreadOwned(s.procs[tid.pid], tid.index, s.threads[tid]);
    forall pid | pid in u.procs ensures ProcAnswers(u.procs[pid], pid, u.threads) {
      assert ProcAnswers(s.procs[pid], pid, s.threads);
      if pid != tid.pid {
        OtherAnswers(s.procs[pid], pid, s.threads, u.threads);
      } else if e.t.pc.Gone? {
        GoneAnswers(cfg, s.procs[pid], tid, s.threads, e);
      } else {
        StayAnswers(cfg, s.procs[pid], tid, s.threads, e);
      }
    }
  }

  lemma OtherAnswers(p: Proc, pid: nat, threads: Threads, after: Threads)
    requires ProcAnswers(p, pid, threads)
    requires forall i :: Tid(pid, i) in after <==> Tid(pid, i) in threads
    ensures ProcAnswers(p, pid, after)
  {
  }

  lemma ThreadKeepsAnswers(cfg: Config, s: State, tid: Tid, c: Choice)
    requires AnswerInv(cfg, s) && StepThread(cfg, s, tid, c).Some?
    ensures AnswerInv(cfg, StepThread(cfg, s, tid, c).value)
  {
    hide ProcAnswers;
    ThreadKeepsBase(cfg, s, tid, c);
    var t := s.threads[tid];
    AdvanceMoves(cfg, t, At(s.files, t.req.actionID), Get(s.remote, t.req.actionID), Full(cfg, s.procs[tid.pid]), c);
    hide Base;
    CommitAnswers(cfg, s, tid, EffectOf(cfg, s, tid, c).value);
  }

  /** Counters of the asynchronous writer have no part in the answers. */
  lemma SameAnswers(p: Proc, q: Proc, pid: nat, threads: Threads)
    requires ProcAnswers(p, pid, threads)
    requires q == p.(tokens := q.tokens, wg := q.wg, started := q.started, succeeded := q.succeeded, failed := q.failed)
    ensures ProcAnswers(q, pid, threads)
  {
  }

  lemma JobKeepsAnswers(cfg: Config, s: State, tid: Tid, c: Choice)
    requires AnswerInv(cfg, s) && StepJob(s, tid, c).Some?
    ensures AnswerInv(cfg, StepJob(s, tid, c).value)
  {
    hide Base;
    hide ProcAnswers;
    var e := AdvanceJob(s.jobs[tid], s.procs[tid.pid], tid, c).value;
    JobKeepsBase(cfg, s, tid, c, e);
    SameAnswers(s.procs[tid.pid], e.p, tid.pid, s.threads);
  }

  lemma SpawnAnswers(p: Proc, pid: nat, threads: Threads, t: Thread)
    requires ProcAnswers(p, pid, threads) && p.phase.Reading? && p.next < |p.input|
    ensures ProcAnswers(p.(next := p.next + 1), pid, threads[Tid(pid, p.next) := t])
  {
    var q := p.(next := p.next + 1);
    forall i | 0 <= i < Served(q) ensures IsAnswered(q.out, i) <==> Tid(pid, i) !in threads[Tid(pid, p.next) := t] {
      if i < p.next {
        assert IsAnswered(p.out, i) <==> Tid(pid, i) !in threads;
      }
    }
  }

  /** Answering close: the close request itself was the one still missing. */
  lemma ReplyAnswers(p: Proc, pid: nat, threads: Threads, q: Proc)
    requires ProcAnswers(p, pid, threads) && p.phase.Replying? && ProcOk(p)
    requires Tid(pid, p.next - 1) !in threads || p.next == 0
    requires AdvanceProc(p, pid, true).Some? && q == AdvanceProc(p, pid, true).value.p
    ensures ProcAnswers(q, pid, threads)
  {
    var a := q.out[|p.out|];
    forall i | 0 <= i < Served(q) ensures IsAnswered(q.out, i) <==> Tid(pid, i) !in threads {
      AppendAnswer(p.out, a, i);
    }
    AppendAnswer(p.out, a, a.index);
  }

  lemma PhaseAnswers(p: Proc, pid: nat, threads: Threads, q: Proc, idle: bool)
    requires ProcAnswers(p, pid, threads) && !p.phase.Replying? && ProcOk(p)
    requires AdvanceProc(p, pid, idle).Some? && AdvanceProc(p, pid, idle).value.spawn.None?
    requires q == AdvanceProc(p, pid, idle).value.p
    ensures ProcAnswers(q, pid, threads)
  {
    assert q.out == p.out && Served(q) == Served(p);
  }

  lemma NoHandlersLate(cfg: Config, s: State, pid: nat, i: nat)
    requires Base(cfg, s) && pid in s.procs && s.procs[pid].phase.Replying?
    ensures Tid(pid, i) !in s.threads
  {
    assert Tid(pid, i) in s.threads ==> ThreadOwned(s.procs[pid], i, s.threads[Tid(pid, i)]);
  }

  /** Run's own action changes the handlers only by starting one. */
  lemma ThreadsAfterProc(s: State, pid: nat, e: ProcEffect)
    requires pid in s.procs
    ensures CommitProc(s, pid, e).threads ==
      if e.spawn.Some? then s.threads[Tid(pid, s.procs[pid].next) := e.spawn.value] else s.threads
  {
  }

  lemma ReplyAdvances(cfg: Config, s: State, pid: nat, e: ProcEffect)
    requires AnswerInv(cfg, s) && pid in s.procs && s.procs[pid].phase.Replying?
    requires AdvanceProc(s.procs[pid], pid, Idle(s.threads, pid)) == Some(e)
    ensures e.spawn.None? && ProcAnswers(e.p, pid, s.threads)
  {
    var p := s.procs[pid];
    assert ProcAnswers(p, pid, s.threads) && ProcOk(p);
    if p.next > 0 {
      NoHandlersLate(cfg, s, pid, p.next - 1);
    }
    hide ProcAnswers;
    hide Idle;
    hide Base;
    ReplyAnswers(p, pid, s.threads, e.p);
  }

  lemma ProcAdvances(cfg: Config, s: State, pid: nat, e: ProcEffect)
    requires AnswerInv(cfg, s) && pid in s.procs && AdvanceProc(s.procs[pid], pid, Idle(s.threads, pid)) == Some(e)
    ensures ProcAnswers(e.p, pid, CommitProc(s, pid, e).threads)
  {
    var p := s.procs[pid];
    assert ProcAnswers(p, pid, s.threads) && ProcOk(p);
    ThreadsAfterProc(s, pid, e);
    hide ProcAnswers;
    hide Idle;
    hide ProcOk;
    hide CommitProc;
    hide Base;
    if e.spawn.Some? {
      SpawnAnswers(p, pid, s.threads, e.spawn.value);
    } else if p.phase.Replying? {
      ReplyAdvances(cfg, s, pid, e);
    } else {
      PhaseAnswers(p, pid, s.threads, e.p, Idle(s.threads, pid));
    }
  }

  lemma ProcKeepsAnswers(cfg: Config, s: State, pid: nat)
    requires AnswerInv(cfg, s) && StepProc(s, pid).Some?
    ensures AnswerInv(cfg, StepProc(s, pid).value)
  {
    var e := AdvanceProc(s.procs[pid], pid, Idle(s.threads, pid)).value;
    AdvanceProcShape(s.procs[pid], pid, Idle(s.threads, pid));
    ProcKeepsBase(cfg, s, pid, e);
    ProcAdvances(cfg, s, pid, e);
    hide Base;
    hide ProcAnswers;
    hide Idle;
    var u := CommitProc(s, pid, e);
    forall q | q in u.procs ensures ProcAnswers(u.procs[q], q, u.threads) {
      if q != pid {
        OtherAnswers(s.procs[q], q, s.threads, u.threads);
      }
    }
  }

  lemma KilledAnswers(p: Proc, pid: nat, threads: Threads)
    requires ProcAnswers(p, pid, threads)
    ensures ProcAnswers(p.(phase := Dead), pid, DropThreads(threads, pid))
  {
  }

  lemma KillKeepsAnswers(cfg: Config, s: State, pid: nat)
    requires AnswerInv(cfg, s) && StepKill(s, pid).Some?
    ensures AnswerInv(cfg, StepKill(s, pid).value)
  {
    KillKeepsBase(cfg, s, pid);
    hide Base;
    hide ProcAnswers;
    var u := StepKill(s, pid).value;
    forall q | q in u.procs ensures ProcAnswers(u.procs[q], q, u.threads) {
      if q != pid {
        OtherAnswers(s.procs[q], q, s.threads, u.threads);
      } else {
        KilledAnswers(s.procs[q], q, s.threads);
      }
    }
  }

  lemma StepKeepsAnswers(cfg: Config, s: State, l: Label)
    requires AnswerInv(cfg, s) && Step(cfg, s, l).Some?
    ensures AnswerInv(cfg, Step(cfg, s, l).value)
  {
    hide AnswerInv;
    match l
    case ThreadL(tid, c) => ThreadKeepsAnswers(cfg, s, tid, c);
    case JobL(tid, c) => JobKeepsAnswers(cfg, s, tid, c);
    case ProcL(pid) => ProcKeepsAnswers(cfg, s, pid);
    case KillL(pid) => KillKeepsAnswers(cfg, s, pid);
  }

  lemma {:induction false} RunKeepsAnswers(cfg: Config, s: State, ls: seq<Label>)
    requires AnswerInv(cfg, s) && Run(cfg, s, ls).Some?
    ensures AnswerInv(cfg, Run(cfg, s, ls).value)
    decreases |ls|
  {
    hide AnswerInv;
    if ls != [] {
      StepKeepsAnswers(cfg, s, ls[0]);
      RunKeepsAnswers(cfg, Step(cfg, s, ls[0]).value, ls[1..]);
    }
  }

  // ---------------------------------------------------------------- theorems

  function Picks(f: seq<int64>, idx: seq<nat>): seq<int64>
    requires forall k :: 0 <= k < |idx| ==> idx[k] < |f|
  {
    seq(|idx|, k requires 0 <= k < |idx| => f[idx[k]])
  }

  predicate Covers(idx: seq<nat>, n: nat) {
    && (forall k :: 0 <= k < |idx| ==> idx[k] < n)
    && (forall k, l :: 0 <= k < l < |idx| ==> idx[k] != idx[l])
    && (forall i: nat :: i < n ==> i in idx)
  }

  lemma CoversRest(idx: seq<nat>, n: nat, k: nat)
    requires Covers(idx, n + 1) && k < |idx| && idx[k] == n
    ensures Covers(idx[..k] + idx[k + 1..], n)
  {
    var rest := idx[..k] + idx[k + 1..];
    forall i: nat | i < n ensures i in rest {
      assert i in idx;
      var l :| 0 <= l < |idx| && idx[l] == i;
      assert rest[if l < k then l else l - 1] == i;
    }
  }

  predicate Below(idx: seq<nat>, n: nat) {
    forall k :: 0 <= k < |idx| ==> idx[k] < n
  }

  lemma HalvesBelow(a: seq<nat>, b: seq<nat>, n: nat)
    requires Below(a + b, n)
    ensures Below(a, n) && Below(b, n)
  {
    forall i | 0 <= i < |b| ensures b[i] < n {
      assert b[i] == (a + b)[|a| + i];
    }
    assert forall i :: 0 <= i < |a| ==> a[i] == (a + b)[i];
  }

  lemma PicksConcat(g: seq<int64>, a: seq<nat>, b: seq<nat>)
    requires Below(a, |g|) && Below(b, |g|)
    ensures Below(a + b, |g|) && Picks(g, a + b) == Picks(g, a) + Picks(g, b)
  {
  }

  lemma PicksSplit(f: seq<int64>, a: seq<nat>, b: seq<nat>)
    requires |f| > 0 && Below(a, |f| - 1) && Below(b, |f| - 1)
    ensures var g := f[..|f| - 1];
      Below(a + [|f| - 1] + b, |f|) && Picks(f, a + [|f| - 1] + b) == Picks(g, a) + [f[|f| - 1]] + Picks(g, b)
  {
  }

  /**
    The step of PicksPermute: the last element of f is picked at position k, and the other picks are picks of the
    rest.
   */
  lemma PicksStep(f: seq<int64>, idx: seq<nat>, k: nat)
    requires |f| > 0 && Covers(idx, |f|) && k < |idx| && idx[k] == |f| - 1
    ensures var g := f[..|f| - 1]; var a, b := idx[..k], idx[k + 1..];
      && Covers(a + b, |g|) && Below(a, |g|) && Below(b, |g|)
      && Picks(f, idx) == Picks(g, a) + [f[|f| - 1]] + Picks(g, b)
      && Picks(g, a + b) == Picks(g, a) + Picks(g, b)
  {
    hide Picks;
    var a, b := idx[..k], idx[k + 1..];
    CoversRest(idx, |f| - 1, k);
    HalvesBelow(a, b, |f| - 1);
    PicksSplit(f, a, b);
    PicksConcat(f[..|f| - 1], a, b);
    assert idx == a + [|f| - 1] + b;
  }

  /** Picking every position of a sequence exactly once, in any order, is a permutation of it. */
  lemma {:induction false} PicksPermute(f: seq<int64>, idx: seq<nat>)
    requires Covers(idx, |f|)
    ensures multiset(Picks(f, idx)) == multiset(f)
    decreases |f|
  {
    if idx == [] {
      assert |f| > 0 ==> 0 in idx;
    } else {
      assert idx[0] < |f|;
      assert |f| - 1 in idx;
      var k :| 0 <= k < |idx| && idx[k] == |f| - 1;
      PicksStep(f, idx, k);
      hide Covers;
      hide Picks;
      hide Below;
      PicksPermute(f[..|f| - 1], idx[..k] + idx[k + 1..]);
      assert f == f[..|f| - 1] + [f[|f| - 1]];
    }
  }

  function RequestIds(rs: seq<Request>): seq<int64> {
    seq(|rs|, i requires 0 <= i < |rs| => rs[i].rid)
  }

  function ResponseIds(out: seq<Answer>): seq<int64> {
    seq(|out|, i requires 0 <= i < |out| => out[i].response.rid)
  }

  lemma InitAnswers(cfg: Config, s: State)
    requires Init(cfg, s)
    ensures AnswerInv(cfg, s)
  {
  }

  /**
    A process that has finished on its own has answered every request it read exactly once: the response IDs are the
    request IDs, counted with multiplicity. It read its whole input, or up to a close whose response is the last one.
   */
  lemma OneResponsePerRequest(cfg: Config, s0: State, ls: seq<Label>, pid: nat)
    requires Init(cfg, s0) && Run(cfg, s0, ls).Some?
    requires pid in Run(cfg, s0, ls).value.procs && Run(cfg, s0, ls).value.procs[pid].phase.Done?
    ensures var p := Run(cfg, s0, ls).value.procs[pid];
      && p.next <= |p.input|
      && multiset(ResponseIds(p.out)) == multiset(RequestIds(p.input[..p.next]))
      && p.greeted && (p.next == |p.input| || ClosedLast(p))
  {
    InitAnswers(cfg, s0);
    RunKeepsAnswers(cfg, s0, ls);
    FinishedCovers(cfg, Run(cfg, s0, ls).value, pid);
    hide *;
  }

  function Indices(out: seq<Answer>): seq<nat> {
    seq(|out|, k requires 0 <= k < |out| => out[k].index)
  }

  lemma FinishedCovers(cfg: Config, s: State, pid: nat)
    requires AnswerInv(cfg, s) && pid in s.procs && s.procs[pid].phase.Done?
    ensures var p := s.procs[pid];
      && p.next <= |p.input| && multiset(ResponseIds(p.out)) == multiset(RequestIds(p.input[..p.next]))
      && p.greeted && (p.next == |p.input| || ClosedLast(p))
  {
    var p := s.procs[pid];
    assert ProcOk(p) && ProcAnswers(p, pid, s.threads);
    var idx := Indices(p.out);
    var f := RequestIds(p.input[..p.next]);
    forall i: nat | i < |f| ensures i in idx {
      FinishedIsAnswered(cfg, s, pid, i);
      var k :| 0 <= k < |p.out| && p.out[k].index == i;
      assert idx[k] == i;
    }
    hide Base;
    hide IsAnswered;
    PicksPermute(f, idx);
    assert Picks(f, idx) == ResponseIds(p.out);
  }

  lemma FinishedIsAnswered(cfg: Config, s: State, pid: nat, i: nat)
    requires AnswerInv(cfg, s) && pid in s.procs && s.procs[pid].phase.Done? && i < s.procs[pid].next
    ensures IsAnswered(s.procs[pid].out, i)
  {
    assert ProcAnswers(s.procs[pid], pid, s.threads);
    assert Tid(pid, i) in s.threads ==> ThreadOwned(s.procs[pid], i, s.threads[Tid(pid, i)]);
  }
}
