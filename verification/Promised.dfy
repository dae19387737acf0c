/**
  Which answers are backed by metadata: with metadata writes and reads succeeding and non-empty output IDs, every
  successful PUT and every GET hit. So every path they name keeps its bytes.
 */
module Promised {
  import opened Basics
  import opened Disk
  import opened Protocol
  import opened Exclusion
  import opened Safety
  import opened Uploads
  import Origins

  /** Whatever the handler is going to answer, unless it is a failure or a miss, is an entry that can be looked up. */
  predicate Backed(t: Thread) {
    && (t.result.Stored? || t.result.Found? ==> PromiseOf(t.result).Some?)
    && (t.req.cmd == CmdPut && (t.pc.Unlocking? || t.pc.Answering?) ==> t.result.Stored? || t.result.Failed?)
  }

  /** Only a close request leads to the close response. */
  predicate ClosesOnClose(p: Proc) {
    p.phase.Draining? || p.phase.Closing? || p.phase.Replying? ==>
      0 < p.next <= |p.input| && p.input[p.next - 1].cmd == CmdClose
  }

  /** A PUT that succeeded or a GET that hit. */
  predicate Success(r: Request, a: Response) {
    a.err.None? && (r.cmd == CmdPut || (r.cmd == CmdGet && !a.miss))
  }

  predicate AnswerBacked(input: seq<Request>, a: Answer) {
    a.index < |input| && Success(input[a.index], a.response) ==> a.promise.Some?
  }

  predicate OutBacked(p: Proc) {
    ClosesOnClose(p) && forall i :: 0 <= i < |p.out| ==> AnswerBacked(p.input, p.out[i])
  }

  predicate AllBacked(threads: Threads, procs: Procs) {
    (forall tid :: tid in threads ==> Backed(threads[tid])) && (forall pid :: pid in procs ==> OutBacked(procs[pid]))
  }

  lemma LookupBacked(cfg: Config, t: Thread, v: View, rem: Option<Record>, c: Choice)
    requires Backed(t) && PcOk(cfg, t) && LooksUp(t.pc) && Lookup(cfg, t, v, rem, c).Some?
    ensures Backed(Lookup(cfg, t, v, rem, c).value.t)
  {
  }

  lemma WritesBacked(cfg: Config, t: Thread, c: Choice)
    requires Backed(t) && Reliable(cfg) && PcOk(cfg, t) && t.entry.outputID != []
    ensures WritesData(t.pc) && WriteData(t, c).Some? ==> Backed(WriteData(t, c).value.t)
    ensures WritesMeta(t.pc) && WriteMeta(cfg, t, c).Some? ==> Backed(WriteMeta(cfg, t, c).value.t)
  {
  }

  lemma FinishBacked(cfg: Config, t: Thread, full: bool, c: Choice)
    requires Backed(t) && PcOk(cfg, t) && Finish(cfg, t, full, c).Some?
    ensures Backed(Finish(cfg, t, full, c).value.t)
  {
  }

  lemma AdvanceBacked(cfg: Config, t: Thread, v: View, rem: Option<Record>, full: bool, c: Choice)
    requires Backed(t) && Reliable(cfg) && PcOk(cfg, t) && (HasEntry(t.pc) ==> t.entry.outputID != [])
    requires Advance(cfg, t, v, rem, full, c).Some?
    ensures Backed(Advance(cfg, t, v, rem, full, c).value.t)
  {
    hide Backed;
    if LooksUp(t.pc) {
      LookupBacked(cfg, t, v, rem, c);
    } else if WritesData(t.pc) || WritesMeta(t.pc) {
      WritesBacked(cfg, t, c);
    } else {
      FinishBacked(cfg, t, full, c);
    }
  }

  lemma AnswerIsBacked(cfg: Config, p: Proc, tid: Tid, t: Thread, e: Effect)
    requires OutBacked(p) && Backed(t) && ThreadOwned(p, tid.index, t) && (e.t.pc.Gone? <==> t.pc.Answering?)
    ensures OutBacked(AfterMove(cfg, p, tid, t, e))
  {
  }

  lemma EffectBacked(cfg: Config, s: State, tid: Tid, c: Choice, e: Effect)
    requires UpInv(cfg, s) && Reliable(cfg) && AllBacked(s.threads, s.procs)
    requires tid in s.threads && tid.pid in s.procs && EffectOf(cfg, s, tid, c) == Some(e)
    ensures Backed(e.t) && OutBacked(AfterMove(cfg, s.procs[tid.pid], tid, s.threads[tid], e))
  {
    var t := s.threads[tid];
    var id := t.req.actionID;
    var p := s.procs[tid.pid];
    assert PcOk(cfg, t) && ThreadNamed(cfg, t, At(s.files, id), s.log) && ThreadOwned(p, tid.index, t) && Backed(t);
    assert OutBacked(p);
    hide UpInv;
    hide Backed;
    hide OutBacked;
    hide ThreadOwned;
    AdvanceMoves(cfg, t, At(s.files, id), Get(s.remote, id), Full(cfg, p), c);
    AdvanceBacked(cfg, t, At(s.files, id), Get(s.remote, id), Full(cfg, p), c);
    hide Advance;
    hide PcOk;
    AnswerIsBacked(cfg, p, tid, t, e);
  }

  lemma CommitBacked(cfg: Config, s: State, tid: Tid, e: Effect)
    requires AllBacked(s.threads, s.procs) && tid in s.threads && tid.pid in s.procs
    requires Backed(e.t) && OutBacked(AfterMove(cfg, s.procs[tid.pid], tid, s.threads[tid], e))
    ensures AllBacked(Commit(cfg, s, tid, e).threads, Commit(cfg, s, tid, e).procs)
  {
    hide Backed;
    hide OutBacked;
    hide AfterMove;
    hide Relock;
  }

  lemma ThreadStepBacked(cfg: Config, s: State, tid: Tid, c: Choice)
    requires UpInv(cfg, s) && Reliable(cfg) && AllBacked(s.threads, s.procs) && StepThread(cfg, s, tid, c).Some?
    ensures AllBacked(StepThread(cfg, s, tid, c).value.threads, StepThread(cfg, s, tid, c).value.procs)
  {
    var e := EffectOf(cfg, s, tid, c).value;
    hide UpInv;
    hide Backed;
    hide OutBacked;
    hide EffectOf;
    EffectBacked(cfg, s, tid, c, e);
    hide AfterMove;
    hide Commit;
    hide AllBacked;
    CommitBacked(cfg, s, tid, e);
  }

  lemma ProcBacked(p: Proc, pid: nat, idle: bool)
    requires OutBacked(p) && ProcOk(p) && AdvanceProc(p, pid, idle).Some?
    ensures var e := AdvanceProc(p, pid, idle).value;
      OutBacked(e.p) && (e.spawn.Some? ==> Backed(e.spawn.value))
  {
  }

  /** One process changes and starts at most one handler, and others may go. */
  lemma SetBacked(threads: Threads, procs: Procs, after: Threads, pid: nat, q: Proc)
    requires AllBacked(threads, procs) && OutBacked(q)
    requires forall tid :: tid in after ==> (tid in threads && after[tid] == threads[tid]) || Backed(after[tid])
    ensures AllBacked(after, procs[pid := q])
  {
    hide Backed;
    hide OutBacked;
  }

  lemma JobBacked(s: State, tid: Tid, c: Choice)
    requires AllBacked(s.threads, s.procs) && StepJob(s, tid, c).Some?
    ensures AllBacked(StepJob(s, tid, c).value.threads, StepJob(s, tid, c).value.procs)
  {
    var p := s.procs[tid.pid];
    var q := AdvanceJob(s.jobs[tid], p, tid, c).value.p;
    assert q.input == p.input && q.out == p.out && q.phase == p.phase && q.next == p.next;
    assert OutBacked(p);
    SetBacked(s.threads, s.procs, s.threads, tid.pid, q);
  }

  lemma ProcStepBacked(cfg: Config, s: State, pid: nat)
    requires Base(cfg, s) && AllBacked(s.threads, s.procs) && StepProc(s, pid).Some?
    ensures AllBacked(StepProc(s, pid).value.threads, StepProc(s, pid).value.procs)
  {
    var e := AdvanceProc(s.procs[pid], pid, Idle(s.threads, pid)).value;
    ProcBacked(s.procs[pid], pid, Idle(s.threads, pid));
    hide AdvanceProc;
    hide Base;
    hide OutBacked;
    hide Backed;
    SetBacked(s.threads, s.procs, StepProc(s, pid).value.threads, pid, e.p);
  }

  lemma KillBacked(s: State, pid: nat)
    requires AllBacked(s.threads, s.procs) && StepKill(s, pid).Some?
    ensures AllBacked(StepKill(s, pid).value.threads, StepKill(s, pid).value.procs)
  {
    assert OutBacked(s.procs[pid]);
    SetBacked(s.threads, s.procs, DropThreads(s.threads, pid), pid, s.procs[pid].(phase := Dead));
  }

  lemma StepBacked(cfg: Config, s: State, l: Label)
    requires UpInv(cfg, s) && Reliable(cfg) && AllBacked(s.threads, s.procs) && Step(cfg, s, l).Some?
    ensures AllBacked(Step(cfg, s, l).value.threads, Step(cfg, s, l).value.procs)
  {
    assert Base(cfg, s);
    hide UpInv;
    hide Base;
    hide AllBacked;
    hide StepThread;
    hide StepJob;
    hide StepProc;
    hide StepKill;
    match l
    case ThreadL(tid, c) => ThreadStepBacked(cfg, s, tid, c);
    case JobL(tid, c) => JobBacked(s, tid, c);
    case ProcL(pid) => ProcStepBacked(cfg, s, pid);
    case KillL(pid) => KillBacked(s, pid);
  }

  lemma {:induction false} RunBacked(cfg: Config, s: State, ls: seq<Label>)
    requires UpInv(cfg, s) && Sound(cfg) && Reliable(cfg) && AllBacked(s.threads, s.procs) && Run(cfg, s, ls).Some?
    ensures AllBacked(Run(cfg, s, ls).value.threads, Run(cfg, s, ls).value.procs)
    decreases |ls|
  {
    hide UpInv;
    hide Sound;
    hide AllBacked;
    hide Step;
    if ls != [] {
      StepBacked(cfg, s, ls[0]);
      StepKeepsUp(cfg, s, ls[0]);
      RunBacked(cfg, Step(cfg, s, ls[0]).value, ls[1..]);
    }
  }

  lemma InitBacked(cfg: Config, s: State)
    requires Init(cfg, s)
    ensures AllBacked(s.threads, s.procs)
  {
    forall pid | pid in s.procs ensures OutBacked(s.procs[pid]) {
      assert FreshProc(s.procs[pid]);
    }
  }

  /** With metadata reliable and output IDs non-empty, every successful PUT and every GET hit is backed by metadata. */
  lemma SuccessIsPromised(cfg: Config, s0: State, ls: seq<Label>, pid: nat, i: nat)
    requires Sound(cfg) && Reliable(cfg) && Init(cfg, s0) && Named(s0.procs, s0.remote) && Run(cfg, s0, ls).Some?
    requires pid in Run(cfg, s0, ls).value.procs && i < |Run(cfg, s0, ls).value.procs[pid].out|
    ensures var p := Run(cfg, s0, ls).value.procs[pid];
      p.out[i].index < |p.input| && Success(p.input[p.out[i].index], p.out[i].response) ==> p.out[i].promise.Some?
  {
    InitHasInv(cfg, s0);
    InitBacked(cfg, s0);
    RunBacked(cfg, s0, ls);
    hide Run;
    assert OutBacked(Run(cfg, s0, ls).value.procs[pid]);
    assert AnswerBacked(Run(cfg, s0, ls).value.procs[pid].input, Run(cfg, s0, ls).value.procs[pid].out[i]);
    hide ClosesOnClose;
  }

  /**
    So whatever anybody does after such an answer, the file it named keeps one and the same write's bytes, with
    metadata that repeats what a GET was told.
   */
  lemma AnsweredPathsKeepTheirBytes(cfg: Config, s0: State, ls0: seq<Label>, ls: seq<Label>, pid: nat, i: nat)
    requires Sound(cfg) && Reliable(cfg) && Init(cfg, s0) && Named(s0.procs, s0.remote) && Run(cfg, s0, ls0).Some?
    requires Run(cfg, Run(cfg, s0, ls0).value, ls).Some?
    requires var s := Run(cfg, s0, ls0).value;
      && pid in s.procs && i < |s.procs[pid].out| && s.procs[pid].out[i].index < |s.procs[pid].input|
      && Success(s.procs[pid].input[s.procs[pid].out[i].index], s.procs[pid].out[i].response)
    ensures var s := Run(cfg, s0, ls0).value; var a := s.procs[pid].out[i]; var r := s.procs[pid].input[a.index];
      a.response.diskPath == Some(cfg.path(r.actionID))
      && var v := At(Run(cfg, s, ls).value.files, r.actionID);
      && v.data.Some? && LocalEntry(cfg, v) == a.promise && a.promise.Some?
      && FromOneWrite(cfg, s0, r.actionID, a.promise.value)
      && (r.cmd == CmdGet ==> MetaOf(cfg, v) == Some(Metadata(a.response.outputID, a.response.size,
          a.promise.value.time))
                              && a.response.time == Some(a.promise.value.time))
  {
    SuccessIsPromised(cfg, s0, ls0, pid, i);
    Origins.AnsweredPathsAreStable(cfg, s0, ls0, ls, pid, i);
    hide Run;
    hide Init;
    hide Sound;
    hide FromOneWrite;
    hide FillsFit;
    hide FilesFit;
  }
}
