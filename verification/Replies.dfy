/** What a response may say, by the kind of its request, in every run (server.go:161-251, 298-380, 388-660). */
module Replies {
  import opened Basics
  import opened Disk
  import opened Protocol
  import opened Exclusion

  /** The outcomes that a request of this kind can have. */
  predicate Possible(r: Request, res: Result) {
    match r.cmd
    case CmdPut =>
      res.Stored?
      || (res.Failed? && (res.fault.LockFailed? || res.fault.BodyShort? || res.fault.LocalWriteFailed?
                          || res.fault.CompressFailed?))
    case CmdGet =>
      res.Found? || res.Absent?
      || (res.Failed? && (res.fault.LockFailed? || res.fault.BackendGetFailed? || res.fault.DecompressFailed?
                          || res.fault.LocalWriteFailed?))
    case CmdOther => res == Failed(UnknownCommand)
    case CmdClose => false
  }

  /** A response to `r` in the source's own terms: which fields are set, and to what. */
  predicate WellFormed(cfg: Config, r: Request, a: Response) {
    && a.rid == r.rid
    && (a.err.Some? ==> a.diskPath.None? && a.time.None? && a.outputID == [] && a.size == 0)
    && (a.diskPath.Some? ==> a.diskPath.value == cfg.path(r.actionID) && !a.miss && a.err.None?)
    && match r.cmd
       case CmdPut => !a.miss && a.time.None? && a.outputID == [] && a.size == 0 && (a.err.None? <==> a.diskPath.Some?)
       case CmdGet => (a.miss <==> a.diskPath.None?) && (a.time.Some? <==> a.diskPath.Some?)
                      && (a.miss ==> a.outputID == [] && a.size == 0)
       case CmdOther => a.err == Some(UnknownCommand) && !a.miss
       case CmdClose => a == Response(r.rid, None, false, [], 0, None, None)
  }

  ghost predicate Proper(cfg: Config, r: Request, a: Response) {
    if r.cmd == CmdClose then a == Response(r.rid, None, false, [], 0, None, None)
    else exists res :: Possible(r, res) && Reports(cfg, r, res, a)
  }

  ghost predicate OutProper(cfg: Config, p: Proc) {
    forall i :: 0 <= i < |p.out| ==> p.out[i].index < |p.input| && Proper(cfg, p.input[p.out[i].index],
        p.out[i].response)
  }

  /** A handler that has left the callback, or never entered it, has an outcome its request can have. */
  predicate Concluded(t: Thread) {
    && (t.pc.Unlocking? || t.pc.Answering? ==> Possible(t.req, t.result))
    && (AtRemote(t.pc) ==> t.result.Stored?)
  }

  predicate ThreadsConcluded(threads: Threads) {
    forall tid :: tid in threads ==> Concluded(threads[tid])
  }

  ghost predicate OutsProper(cfg: Config, procs: Procs) {
    forall pid :: pid in procs ==> OutProper(cfg, procs[pid])
  }

  predicate ClosesLast(p: Proc) {
    p.phase.Draining? || p.phase.Closing? || p.phase.Replying? ==>
      0 < p.next <= |p.input| && p.input[p.next - 1].cmd == CmdClose
  }

  predicate AllCloseLast(procs: Procs) {
    forall pid :: pid in procs ==> ClosesLast(procs[pid])
  }

  ghost predicate ReplyInv(cfg: Config, s: State) {
    Base(cfg, s) && ThreadsConcluded(s.threads) && OutsProper(cfg, s.procs) && AllCloseLast(s.procs)
  }

  // ---------------------------------------------------------------- handlers

  lemma LookupConcludes(cfg: Config, t: Thread, v: View, rem: Option<Record>, c: Choice)
    requires PcOk(cfg, t) && Concluded(t) && t.req.cmd != CmdClose && LooksUp(t.pc) && Lookup(cfg, t, v, rem, c).Some?
    ensures Concluded(Lookup(cfg, t, v, rem, c).value.t)
  {
  }

  lemma WriteConcludes(cfg: Config, t: Thread, c: Choice)
    requires PcOk(cfg, t) && Concluded(t) && t.req.cmd != CmdClose
    ensures WritesData(t.pc) && WriteData(t, c).Some? ==> Concluded(WriteData(t, c).value.t)
    ensures WritesMeta(t.pc) && WriteMeta(cfg, t, c).Some? ==> Concluded(WriteMeta(cfg, t, c).value.t)
  {
  }

  lemma FinishConcludes(cfg: Config, t: Thread, full: bool, c: Choice)
    requires PcOk(cfg, t) && Concluded(t) && t.req.cmd != CmdClose && Finish(cfg, t, full, c).Some?
    ensures Concluded(Finish(cfg, t, full, c).value.t)
  {
  }

  lemma AdvanceConcludes(cfg: Config, t: Thread, v: View, rem: Option<Record>, full: bool, c: Choice)
    requires PcOk(cfg, t) && Concluded(t) && t.req.cmd != CmdClose && Advance(cfg, t, v, rem, full, c).Some?
    ensures Concluded(Advance(cfg, t, v, rem, full, c).value.t)
  {
    hide Concluded;
    if LooksUp(t.pc) {
      LookupConcludes(cfg, t, v, rem, c);
    } else if WritesData(t.pc) || WritesMeta(t.pc) {
      WriteConcludes(cfg, t, c);
    } else {
      FinishConcludes(cfg, t, full, c);
    }
  }

  /** The response the machine sends reports the outcome. */
  lemma ResponseReports(cfg: Config, r: Request, res: Result)
    requires Possible(r, res)
    ensures Reports(cfg, r, res, ResponseOf(cfg, r, res)) && Proper(cfg, r, ResponseOf(cfg, r, res))
  {
  }

  lemma AnswerIsProper(cfg: Config, p: Proc, tid: Tid, t: Thread, e: Effect)
    requires OutProper(cfg, p) && ThreadOwned(p, tid.index, t) && Concluded(t) && (e.t.pc.Gone? <==> t.pc.Answering?)
    ensures OutProper(cfg, AfterMove(cfg, p, tid, t, e))
  {
    if e.t.pc.Gone? {
      ResponseReports(cfg, t.req, t.result);
    }
    hide Proper;
  }

  lemma EffectConcludes(cfg: Config, s: State, tid: Tid, c: Choice, e: Effect)
    requires Base(cfg, s) && ThreadsConcluded(s.threads) && tid in s.threads && EffectOf(cfg, s, tid, c) == Some(e)
    ensures Concluded(e.t) && (e.t.pc.Gone? <==> s.threads[tid].pc.Answering?)
    ensures ThreadOwned(s.procs[tid.pid], tid.index, s.threads[tid])
  {
    var t := s.threads[tid];
    assert PcOk(cfg, t) && ThreadOwned(s.procs[tid.pid], tid.index, t);
    hide Base;
    hide Concluded;
    AdvanceMoves(cfg, t, At(s.files, t.req.actionID), Get(s.remote, t.req.actionID), Full(cfg, s.procs[tid.pid]), c);
    AdvanceConcludes(cfg, t, At(s.files, t.req.actionID), Get(s.remote, t.req.actionID), Full(cfg, s.procs[tid.pid]),
        c);
    hide Advance;
    hide PcOk;
  }

  lemma CommitReplies(cfg: Config, s: State, tid: Tid, e: Effect)
    requires ThreadsConcluded(s.threads) && OutsProper(cfg, s.procs) && AllCloseLast(s.procs)
    requires tid in s.threads && tid.pid in s.procs && Concluded(e.t)
    requires ThreadOwned(s.procs[tid.pid], tid.index, s.threads[tid])
    requires e.t.pc.Gone? <==> s.threads[tid].pc.Answering?
    ensures var u := Commit(cfg, s, tid, e);
      ThreadsConcluded(u.threads) && OutsProper(cfg, u.procs) && AllCloseLast(u.procs)
  {
    var p := s.procs[tid.pid];
    AnswerIsProper(cfg, p, tid, s.threads[tid], e);
    var q := AfterMove(cfg, p, tid, s.threads[tid], e);
    assert ClosesLast(p) && q.phase == p.phase && q.next == p.next && q.input == p.input;
    assert ClosesLast(q);
    hide AfterMove;
    hide OutProper;
    hide Concluded;
    hide ClosesLast;
    hide ThreadOwned;
    hide Relock;
  }

  lemma ThreadKeepsReplies(cfg: Config, s: State, tid: Tid, c: Choice)
    requires ReplyInv(cfg, s) && StepThread(cfg, s, tid, c).Some?
    ensures ReplyInv(cfg, StepThread(cfg, s, tid, c).value)
  {
    var e := EffectOf(cfg, s, tid, c).value;
    ThreadKeepsBase(cfg, s, tid, c);
    EffectConcludes(cfg, s, tid, c, e);
    hide Base;
    hide EffectOf;
    hide ThreadOwned;
    hide Concluded;
    hide Commit;
    hide ThreadsConcluded;
    hide OutsProper;
    hide AllCloseLast;
    CommitReplies(cfg, s, tid, e);
  }

  // ---------------------------------------------------------------- the other actions

  lemma JobKeepsReplies(cfg: Config, s: State, tid: Tid, c: Choice)
    requires ReplyInv(cfg, s) && StepJob(s, tid, c).Some?
    ensures ReplyInv(cfg, StepJob(s, tid, c).value)
  {
    var e := AdvanceJob(s.jobs[tid], s.procs[tid.pid], tid, c).value;
    var p := s.procs[tid.pid];
    JobKeepsBase(cfg, s, tid, c, e);
    assert e.p.out == p.out && e.p.input == p.input && e.p.phase == p.phase && e.p.next == p.next;
    hide AdvanceJob;
    hide Base;
    hide Proper;
    assert OutProper(cfg, e.p);
    hide OutProper;
    hide Concluded;
  }

  lemma ProcReplies(cfg: Config, p: Proc, pid: nat, idle: bool)
    requires OutProper(cfg, p) && ClosesLast(p) && AdvanceProc(p, pid, idle).Some?
    ensures var e := AdvanceProc(p, pid, idle).value;
      OutProper(cfg, e.p) && ClosesLast(e.p) && (e.spawn.Some? ==> Concluded(e.spawn.value))
  {
    var e := AdvanceProc(p, pid, idle).value;
    if p.phase.Replying? {
      assert Proper(cfg, p.input[p.next - 1], Response(p.input[p.next - 1].rid, None, false, [], 0, None, None));
    }
    hide Proper;
  }

  lemma CommitProcReplies(cfg: Config, s: State, pid: nat, e: ProcEffect)
    requires ThreadsConcluded(s.threads) && OutsProper(cfg, s.procs) && AllCloseLast(s.procs) && pid in s.procs
    requires AdvanceProc(s.procs[pid], pid, Idle(s.threads, pid)) == Some(e)
    ensures var u := CommitProc(s, pid, e);
      ThreadsConcluded(u.threads) && OutsProper(cfg, u.procs) && AllCloseLast(u.procs)
  {
    ProcReplies(cfg, s.procs[pid], pid, Idle(s.threads, pid));
    hide AdvanceProc;
    hide Idle;
    hide OutProper;
    hide ClosesLast;
    hide Concluded;
  }

  lemma ProcKeepsReplies(cfg: Config, s: State, pid: nat)
    requires ReplyInv(cfg, s) && StepProc(s, pid).Some?
    ensures ReplyInv(cfg, StepProc(s, pid).value)
  {
    var e := AdvanceProc(s.procs[pid], pid, Idle(s.threads, pid)).value;
    assert ProcOk(s.procs[pid]);
    hide Base;
    hide Idle;
    hide ThreadsConcluded;
    hide OutsProper;
    hide AllCloseLast;
    AdvanceProcShape(s.procs[pid], pid, Idle(s.threads, pid));
    hide AdvanceProc;
    ProcKeepsBase(cfg, s, pid, e);
    CommitProcReplies(cfg, s, pid, e);
    hide CommitProc;
    hide ProcShape;
  }

  lemma KillKeepsReplies(cfg: Config, s: State, pid: nat)
    requires ReplyInv(cfg, s) && StepKill(s, pid).Some?
    ensures ReplyInv(cfg, StepKill(s, pid).value)
  {
    KillKeepsBase(cfg, s, pid);
    hide Base;
    hide Proper;
    assert OutProper(cfg, s.procs[pid]);
    assert OutProper(cfg, s.procs[pid].(phase := Dead));
    hide OutProper;
    hide Concluded;
  }

  lemma StepKeepsReplies(cfg: Config, s: State, l: Label)
    requires ReplyInv(cfg, s) && Step(cfg, s, l).Some?
    ensures ReplyInv(cfg, Step(cfg, s, l).value)
  {
    hide ReplyInv;
    match l
    case ThreadL(tid, c) => ThreadKeepsReplies(cfg, s, tid, c);
    case JobL(tid, c) => JobKeepsReplies(cfg, s, tid, c);
    case ProcL(pid) => ProcKeepsReplies(cfg, s, pid);
    case KillL(pid) => KillKeepsReplies(cfg, s, pid);
  }

  lemma {:induction false} RunKeepsReplies(cfg: Config, s: State, ls: seq<Label>)
    requires ReplyInv(cfg, s) && Run(cfg, s, ls).Some?
    ensures ReplyInv(cfg, Run(cfg, s, ls).value)
    decreases |ls|
  {
    hide ReplyInv;
    hide Step;
    if ls != [] {
      StepKeepsReplies(cfg, s, ls[0]);
      RunKeepsReplies(cfg, Step(cfg, s, ls[0]).value, ls[1..]);
    }
  }

  lemma ProperIsWellFormed(cfg: Config, r: Request, a: Response)
    requires Proper(cfg, r, a)
    ensures WellFormed(cfg, r, a)
  {
  }

  /**
    In every run each response answers its request in the form the protocol has for it: a PUT with its file's path or
    an error, a GET with a hit, a miss, or a miss and an error, a close with nothing, anything else with an error; an
    answer names the path of its own action and no other.
   */
  lemma ResponsesAreWellFormed(cfg: Config, s0: State, ls: seq<Label>, pid: nat, i: nat)
    requires Init(cfg, s0) && Run(cfg, s0, ls).Some?
    requires pid in Run(cfg, s0, ls).value.procs && i < |Run(cfg, s0, ls).value.procs[pid].out|
    ensures var p := Run(cfg, s0, ls).value.procs[pid];
      p.out[i].index < |p.input| && WellFormed(cfg, p.input[p.out[i].index], p.out[i].response)
  {
    RunKeepsReplies(cfg, s0, ls);
    var p := Run(cfg, s0, ls).value.procs[pid];
    assert OutProper(cfg, p);
    ProperIsWellFormed(cfg, p.input[p.out[i].index], p.out[i].response);
    hide *;
  }
}
