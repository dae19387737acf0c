/**
  The file lock's timeout (fslock.go:46-66): a handler that does not get the lock in time answers with an error and,
  over its whole life, has run nothing.
 */
module Timeouts {
  import opened Basics
  import opened Disk
  import opened Protocol
  import opened Exclusion

  /** Files, remote store, locks and uploads are as they were. */
  predicate SameShared(s: State, u: State) {
    s.files == u.files && s.remote == u.remote && s.locks == u.locks && s.jobs == u.jobs && s.log == u.log
  }

  /** No action of this handler in the run changes anything that is shared. */
  predicate Quiet(cfg: Config, s: State, ls: seq<Label>, tid: Tid)
    decreases |ls|
  {
    ls != [] && Step(cfg, s, ls[0]).Some? ==>
      && (ls[0].ThreadL? && ls[0].tid == tid ==> SameShared(s, Step(cfg, s, ls[0]).value))
      && Quiet(cfg, Step(cfg, s, ls[0]).value, ls[1..], tid)
  }

  /** The handler has left its first program point. */
  predicate Moved(s: State, tid: Tid) {
    && tid.pid in s.procs && tid.index < s.procs[tid.pid].next
    && (tid in s.threads ==> !s.threads[tid].pc.Locking?)
  }

  lemma NeverBackToLocking(cfg: Config, t: Thread, v: View, rem: Option<Record>, full: bool, c: Choice)
    requires Advance(cfg, t, v, rem, full, c).Some?
    ensures !Advance(cfg, t, v, rem, full, c).value.t.pc.Locking?
  {
  }

  lemma ThreadKeepsMoved(cfg: Config, s: State, tid: Tid, x: Tid, c: Choice)
    requires Base(cfg, s) && StepThread(cfg, s, x, c).Some? && (Moved(s, tid) || x == tid)
    ensures Moved(StepThread(cfg, s, x, c).value, tid)
  {
    var t := s.threads[x];
    NeverBackToLocking(cfg, t, At(s.files, t.req.actionID), Get(s.remote, t.req.actionID), Full(cfg, s.procs[x.pid]),
        c);
    assert ThreadOwned(s.procs[x.pid], x.index, t);
    hide Advance;
    hide Base;
    hide ThreadOwned;
  }

  lemma ProcKeepsMoved(cfg: Config, s: State, tid: Tid, pid: nat)
    requires Moved(s, tid) && StepProc(s, pid).Some?
    ensures Moved(StepProc(s, pid).value, tid)
  {
    var e := AdvanceProc(s.procs[pid], pid, Idle(s.threads, pid)).value;
    assert e.p.next >= s.procs[pid].next;
    hide AdvanceProc;
  }

  lemma StepKeepsMoved(cfg: Config, s: State, tid: Tid, l: Label)
    requires Base(cfg, s) && Step(cfg, s, l).Some? && (Moved(s, tid) || (l.ThreadL? && l.tid == tid))
    ensures Moved(Step(cfg, s, l).value, tid)
  {
    hide StepThread;
    hide StepProc;
    match l
    case ThreadL(x, c) => ThreadKeepsMoved(cfg, s, tid, x, c);
    case JobL(x, c) =>
      hide Base;
      assert AdvanceJob(s.jobs[x], s.procs[x.pid], x, c).value.p.next == s.procs[x.pid].next;
    case ProcL(pid) => ProcKeepsMoved(cfg, s, tid, pid);
    case KillL(pid) =>
      hide Base;
  }

  lemma {:induction false} RunKeepsMoved(cfg: Config, s: State, tid: Tid, ls: seq<Label>)
    requires Base(cfg, s) && Moved(s, tid) && Run(cfg, s, ls).Some?
    ensures Moved(Run(cfg, s, ls).value, tid)
    decreases |ls|
  {
    if ls != [] {
      StepKeepsMoved(cfg, s, tid, ls[0]);
      StepKeepsBase(cfg, s, ls[0]);
      RunKeepsMoved(cfg, Step(cfg, s, ls[0]).value, tid, ls[1..]);
    }
  }

  /** A handler still waiting for its lock has done nothing yet. */
  lemma {:induction false} QuietBefore(cfg: Config, s: State, tid: Tid, ls: seq<Label>)
    requires Base(cfg, s) && Run(cfg, s, ls).Some?
    requires var u := Run(cfg, s, ls).value; tid in u.threads && u.threads[tid].pc.Locking?
    ensures Quiet(cfg, s, ls, tid)
    decreases |ls|
  {
    hide Base;
    hide Step;
    if ls != [] {
      var u := Step(cfg, s, ls[0]).value;
      StepKeepsBase(cfg, s, ls[0]);
      if ls[0].ThreadL? && ls[0].tid == tid {
        StepKeepsMoved(cfg, s, tid, ls[0]);
        RunKeepsMoved(cfg, u, tid, ls[1..]);
      }
      QuietBefore(cfg, u, tid, ls[1..]);
    }
  }

  // ---------------------------------------------------------------- after the timeout

  /** The error response of a handler that did not get the lock; a GET also reports a miss. */
  function TimeoutResponse(r: Request): Response {
    Response(r.rid, Some(LockFailed), r.cmd == CmdGet, [], 0, None, None)
  }

  predicate Answered(s: State, tid: Tid, r: Request) {
    tid.pid in s.procs && Answer(tid.index, TimeoutResponse(r), None) in s.procs[tid.pid].out
  }

  predicate Killed(s: State, tid: Tid) {
    tid.pid in s.procs && s.procs[tid.pid].phase.Dead?
  }

  /** The handler is about to answer with the timeout, has done so, or went away with its process. */
  predicate TimedOut(s: State, tid: Tid, r: Request) {
    && Moved(s, tid)
    && (tid in s.threads ==>
          s.threads[tid].pc.Answering? && s.threads[tid].req == r && s.threads[tid].result == Failed(LockFailed))
    && (tid !in s.threads ==> Answered(s, tid, r) || Killed(s, tid))
  }

  lemma AnsweringEffect(cfg: Config, t: Thread, v: View, rem: Option<Record>, full: bool, c: Choice)
    requires t.pc.Answering? && Advance(cfg, t, v, rem, full, c).Some?
    ensures Advance(cfg, t, v, rem, full, c).value == Effect(t.(pc := Gone), Nop, None, None, None)
  {
  }

  lemma OwnStepAfter(cfg: Config, s: State, tid: Tid, r: Request, c: Choice)
    requires TimedOut(s, tid, r) && StepThread(cfg, s, tid, c).Some?
    ensures var u := StepThread(cfg, s, tid, c).value; SameShared(s, u) && tid !in u.threads && Answered(u, tid, r)
  {
    var t := s.threads[tid];
    AnsweringEffect(cfg, t, At(s.files, r.actionID), Get(s.remote, r.actionID), Full(cfg, s.procs[tid.pid]), c);
    hide Advance;
  }

  lemma OtherThreadAfter(cfg: Config, s: State, tid: Tid, r: Request, x: Tid, c: Choice)
    requires TimedOut(s, tid, r) && StepThread(cfg, s, x, c).Some? && x != tid
    ensures var u := StepThread(cfg, s, x, c).value;
      (tid in u.threads <==> tid in s.threads) && (tid in s.threads ==> u.threads[tid] == s.threads[tid])
      && (Answered(s, tid, r) ==> Answered(u, tid, r)) && (Killed(s, tid) ==> Killed(u, tid))
  {
    hide Advance;
  }

  lemma ProcAfter(s: State, tid: Tid, r: Request, pid: nat)
    requires TimedOut(s, tid, r) && StepProc(s, pid).Some?
    ensures TimedOut(StepProc(s, pid).value, tid, r)
  {
    var p := s.procs[pid];
    var e := AdvanceProc(p, pid, Idle(s.threads, pid)).value;
    assert p.next <= e.p.next && (forall a :: a in p.out ==> a in e.p.out) && !p.phase.Dead?;
    hide AdvanceProc;
  }

  lemma StepAfter(cfg: Config, s: State, tid: Tid, r: Request, l: Label)
    requires Base(cfg, s) && TimedOut(s, tid, r) && Step(cfg, s, l).Some?
    ensures TimedOut(Step(cfg, s, l).value, tid, r)
    ensures l.ThreadL? && l.tid == tid ==> SameShared(s, Step(cfg, s, l).value)
  {
    StepKeepsMoved(cfg, s, tid, l);
    hide Base;
    hide StepThread;
    match l
    case ThreadL(x, c) =>
      if x == tid {
        OwnStepAfter(cfg, s, tid, r, c);
      } else {
        OtherThreadAfter(cfg, s, tid, r, x, c);
      }
    case JobL(x, c) =>
      var p := s.procs[x.pid];
      var q := AdvanceJob(s.jobs[x], p, x, c).value.p;
      assert q.out == p.out && q.phase == p.phase && q.next == p.next;
      hide AdvanceJob;
    case ProcL(pid) => ProcAfter(s, tid, r, pid);
    case KillL(pid) =>
  }

  lemma {:induction false} QuietAfter(cfg: Config, s: State, tid: Tid, r: Request, ls: seq<Label>)
    requires Base(cfg, s) && TimedOut(s, tid, r) && Run(cfg, s, ls).Some?
    ensures Quiet(cfg, s, ls, tid) && TimedOut(Run(cfg, s, ls).value, tid, r)
    decreases |ls|
  {
    hide Base;
    hide Step;
    hide TimedOut;
    if ls != [] {
      StepAfter(cfg, s, tid, r, ls[0]);
      StepKeepsBase(cfg, s, ls[0]);
      QuietAfter(cfg, Step(cfg, s, ls[0]).value, tid, r, ls[1..]);
    }
  }

  lemma ExpiryEffect(cfg: Config, t: Thread, v: View, rem: Option<Record>, full: bool)
    requires t.pc.Locking? && cfg.lockMayFail
    ensures Advance(cfg, t, v, rem, full, Fail) ==
      Some(Expiry(t))
  {
  }

  function Expiry(t: Thread): Effect {
    Effect(t.(pc := Answering, result := Failed(LockFailed)), Nop, None, None, None)
  }

  lemma ExpiryCommits(cfg: Config, s: State, tid: Tid)
    requires tid in s.threads && tid.pid in s.procs && s.threads[tid].pc.Locking? && tid.index < s.procs[tid.pid].next
    ensures var u := Commit(cfg, s, tid, Expiry(s.threads[tid]));
      SameShared(s, u) && TimedOut(u, tid, s.threads[tid].req)
  {
  }

  /** The timeout itself. */
  lemma Expires(cfg: Config, s: State, tid: Tid)
    requires Base(cfg, s) && tid in s.threads && s.threads[tid].pc.Locking? && cfg.lockMayFail
    ensures var u := Step(cfg, s, ThreadL(tid, Fail));
      u.Some? && SameShared(s, u.value) && TimedOut(u.value, tid, s.threads[tid].req)
  {
    var t := s.threads[tid];
    var id := t.req.actionID;
    assert ThreadOwned(s.procs[tid.pid], tid.index, t);
    hide Base;
    ExpiryEffect(cfg, t, At(s.files, id), Get(s.remote, id), Full(cfg, s.procs[tid.pid]));
    hide Advance;
    hide Full;
    ExpiryCommits(cfg, s, tid);
    hide Commit;
    hide TimedOut;
    hide SameShared;
  }

  lemma {:induction false} QuietAppend(cfg: Config, s: State, ls: seq<Label>, ms: seq<Label>, tid: Tid)
    requires Run(cfg, s, ls).Some? && Quiet(cfg, s, ls, tid) && Quiet(cfg, Run(cfg, s, ls).value, ms, tid)
    ensures Quiet(cfg, s, ls + ms, tid)
    decreases |ls|
  {
    hide Step;
    if ls == [] {
      assert ls + ms == ms;
    } else {
      assert (ls + ms)[1..] == ls[1..] + ms;
      QuietAppend(cfg, Step(cfg, s, ls[0]).value, ls[1..], ms, tid);
    }
  }

  /**
    However the run goes on, a handler whose lock request times out never changes files, remote store, locks or
    uploads, before or after; and its answer, if its process lives to send it, is the timeout error.
   */
  lemma TimeoutRunsNothing(cfg: Config, s: State, ls: seq<Label>, tid: Tid, ms: seq<Label>)
    requires Base(cfg, s) && cfg.lockMayFail && Run(cfg, s, ls).Some?
    requires var u := Run(cfg, s, ls).value; tid in u.threads && u.threads[tid].pc.Locking?
    requires Run(cfg, Run(cfg, s, ls).value, [ThreadL(tid, Fail)] + ms).Some?
    ensures Quiet(cfg, s, ls + ([ThreadL(tid, Fail)] + ms), tid)
    ensures var u := Run(cfg, s, ls).value; var w := Run(cfg, u, [ThreadL(tid, Fail)] + ms).value;
      tid in w.threads || Killed(w, tid) || Answered(w, tid, u.threads[tid].req)
  {
    var u := Run(cfg, s, ls).value;
    var rest := [ThreadL(tid, Fail)] + ms;
    assert rest[1..] == ms;
    QuietBefore(cfg, s, tid, ls);
    RunKeepsBase(cfg, s, ls);
    Expires(cfg, u, tid);
    StepKeepsBase(cfg, u, ThreadL(tid, Fail));
    hide Base;
    hide Step;
    var w := Step(cfg, u, ThreadL(tid, Fail)).value;
    QuietAfter(cfg, w, tid, u.threads[tid].req, ms);
    assert Quiet(cfg, u, rest, tid);
    QuietAppend(cfg, s, ls, rest, tid);
  }
}
