/** A close command drains the asynchronous writer: nothing accepted is lost, nothing is put after the inner Close. */
module Close {
  import opened Basics
  import opened Disk
  import opened Protocol
  import opened Exclusion
  import opened Drain

  /** The inner backend's Put for this upload has returned. */
  predicate PutDone(log: seq<Event>, tid: Tid) {
    InnerPut(tid, true) in log || InnerPut(tid, false) in log
  }

  /** When an event may come next. */
  predicate MayFollow(log: seq<Event>, ev: Event) {
    match ev
    case Issued(_, _) => true
    case Accepted(tid) => ev !in log && !PutDone(log, tid) && InnerClosed(tid.pid) !in log
    case InnerPut(tid, _) => !PutDone(log, tid) && InnerClosed(tid.pid) !in log
    case InnerClosed(_) => ev !in log
    case CloseAnswered(pid) => InnerClosed(pid) in log
  }

  predicate Ordered(log: seq<Event>) {
    forall j :: 0 <= j < |log| ==> MayFollow(log[..j], log[j])
  }

  predicate PastPut(pc: Pc) {
    pc.Unlocking? || pc.Answering? || pc.Gone?
  }

  /** Where one upload is: what the log says of it, and which goroutines work on it. */
  datatype Standing = Standing(accepted: bool, done: bool, closed: bool,
                               busy: bool,            // its handler has not passed the backend call yet
                               job: Option<bool>,     // its goroutine, and whether the inner Put is still to return
                               known: bool, active: bool)

  function StandingOf(threads: Threads, jobs: Jobs, procs: Procs, log: seq<Event>, tid: Tid): Standing {
    Standing(Accepted(tid) in log, PutDone(log, tid), InnerClosed(tid.pid) in log,
             tid in threads && !PastPut(threads[tid].pc),
             if tid in jobs then Some(jobs[tid].pc.Running?) else None,
             tid.pid in procs && tid.index < procs[tid.pid].next,
             tid.pid in procs && Active(procs[tid.pid]))
  }

  /** Accepted uploads are done, in progress, or lost with a process that ended without closing its backend. */
  predicate Fine(x: Standing) {
    && (x.accepted || x.done ==> x.known)
    && (x.busy ==> !x.accepted && !x.done)
    && (x.job.Some? ==> x.accepted && (x.job.value <==> !x.done) && !x.closed)
    && (x.accepted && x.job.None? ==> x.done || (!x.closed && !x.active))
  }

  predicate UploadOk(threads: Threads, jobs: Jobs, procs: Procs, log: seq<Event>, tid: Tid) {
    Fine(StandingOf(threads, jobs, procs, log, tid))
  }

  predicate ClosedOk(procs: Procs, log: seq<Event>, pid: nat) {
    && (InnerClosed(pid) in log ==> pid in procs && (procs[pid].phase.Replying? || !Active(procs[pid])))
    && (pid in procs && procs[pid].phase.Replying? ==> InnerClosed(pid) in log)
  }

  ghost predicate LogOk(s: State) {
    && Ordered(s.log)
    && (forall tid :: UploadOk(s.threads, s.jobs, s.procs, s.log, tid))
    && (forall pid :: ClosedOk(s.procs, s.log, pid))
  }

  ghost predicate CloseInv(cfg: Config, s: State) {
    AsyncInv(cfg, s) && LogOk(s)
  }

  lemma AppendOrdered(log: seq<Event>, ev: Event)
    requires Ordered(log) && MayFollow(log, ev)
    ensures Ordered(log + [ev])
  {
    var l := log + [ev];
    forall j | 0 <= j < |l| ensures MayFollow(l[..j], l[j]) {
      if j < |log| {
        assert l[..j] == log[..j];
      } else {
        assert l[..j] == log;
      }
    }
  }

  /** What a handler's action means for the log. */
  predicate LogEffect(t: Thread, e: Effect) {
    && (e.spawn.Some? <==> e.event == Some(EvAccepted))
    && (e.spawn.Some? <==> t.pc.Spawning?)
    && (e.event.Some? && e.event.value.EvInnerPut? ==> t.pc.Putting?)
    && (e.event.Some? && !e.event.value.EvIssued? ==> PastPut(e.t.pc))
    && (PastPut(t.pc) ==> e.event.None? && PastPut(e.t.pc))
  }

  lemma LookupLogs(cfg: Config, t: Thread, v: View, rem: Option<Record>, c: Choice)
    requires LooksUp(t.pc) && Lookup(cfg, t, v, rem, c).Some?
    ensures LogEffect(t, Lookup(cfg, t, v, rem, c).value)
  {
  }

  lemma WriteLogs(cfg: Config, t: Thread, c: Choice)
    ensures WritesData(t.pc) && WriteData(t, c).Some? ==> LogEffect(t, WriteData(t, c).value)
    ensures WritesMeta(t.pc) && WriteMeta(cfg, t, c).Some? ==> LogEffect(t, WriteMeta(cfg, t, c).value)
  {
  }

  lemma FinishLogs(cfg: Config, t: Thread, full: bool, c: Choice)
    requires Finish(cfg, t, full, c).Some?
    ensures LogEffect(t, Finish(cfg, t, full, c).value)
  {
  }

  lemma AdvanceLogs(cfg: Config, t: Thread, v: View, rem: Option<Record>, full: bool, c: Choice)
    requires Advance(cfg, t, v, rem, full, c).Some?
    ensures LogEffect(t, Advance(cfg, t, v, rem, full, c).value)
  {
    hide LogEffect;
    if LooksUp(t.pc) {
      LookupLogs(cfg, t, v, rem, c);
    } else if WritesData(t.pc) || WritesMeta(t.pc) {
      WriteLogs(cfg, t, c);
    } else {
      FinishLogs(cfg, t, full, c);
    }
  }

  /** A process that still has handlers has not closed its backend. */
  lemma RunningIsOpen(cfg: Config, s: State, tid: Tid)
    requires CloseInv(cfg, s) && (tid in s.threads || tid in s.jobs)
    ensures InnerClosed(tid.pid) !in s.log && tid.pid in s.procs && Active(s.procs[tid.pid])
    ensures tid.index < s.procs[tid.pid].next
  {
    assert ClosedOk(s.procs, s.log, tid.pid);
    if tid in s.threads {
      assert ThreadOwned(s.procs[tid.pid], tid.index, s.threads[tid]);
    } else {
      assert JobOwned(s.threads, s.procs, tid);
    }
  }

  function Appended(log: seq<Event>, ev: Option<Event>): seq<Event> {
    if ev.Some? then log + [ev.value] else log
  }

  /** The upload an event is about. */
  predicate About(ev: Option<Event>, tid: Tid) {
    ev.Some? && (ev.value == Accepted(tid) || (ev.value.InnerPut? && ev.value.tid == tid))
  }

  lemma OthersUnnoticed(log: seq<Event>, ev: Option<Event>, tid: Tid)
    requires !About(ev, tid)
    ensures Accepted(tid) in Appended(log, ev) <==> Accepted(tid) in log
    ensures PutDone(Appended(log, ev), tid) <==> PutDone(log, tid)
  {
  }

  lemma UnclosedUnnoticed(log: seq<Event>, ev: Option<Event>, procs: Procs, after: Procs, pid: nat)
    requires ev.Some? ==> !ev.value.InnerClosed?
    requires ClosedOk(procs, log, pid) && after.Keys == procs.Keys
    requires (pid in procs ==> after[pid].phase == procs[pid].phase)
    ensures ClosedOk(after, Appended(log, ev), pid)
    ensures (InnerClosed(pid) in Appended(log, ev) <==> InnerClosed(pid) in log)
  {
  }

  /** An event about another upload leaves this one where it is. */
  lemma StandingUnnoticed(threads: Threads, jobs: Jobs, procs: Procs, log: seq<Event>, ev: Option<Event>, x: Tid)
    requires !About(ev, x) && (ev.Some? ==> ev.value != InnerClosed(x.pid))
    ensures StandingOf(threads, jobs, procs, Appended(log, ev), x) == StandingOf(threads, jobs, procs, log, x)
  {
    OthersUnnoticed(log, ev, x);
  }

  /** The process keeps its place; counters and output do not matter to uploads. */
  predicate Alike(p: Proc, q: Proc) {
    q.phase == p.phase && q.next == p.next
  }

  lemma StandingAlike(threads: Threads, jobs: Jobs, procs: Procs, log: seq<Event>, pid: nat, q: Proc, x: Tid)
    requires pid in procs && Alike(procs[pid], q)
    ensures StandingOf(threads, jobs, procs[pid := q], log, x) == StandingOf(threads, jobs, procs, log, x)
  {
  }

  lemma MoverStanding(threads: Threads, jobs: Jobs, procs: Procs, log: seq<Event>, tid: Tid, e: Effect,
                      ev: Option<Event>)
    requires tid in threads && LogEffect(threads[tid], e) && UploadOk(threads, jobs, procs, log, tid)
    requires tid.pid in procs && tid.index < procs[tid.pid].next && InnerClosed(tid.pid) !in log
    requires ev == if e.event.Some? then Some(EventOf(e.event.value, tid, threads[tid].req.actionID)) else None
    ensures var js := if e.spawn.Some? then jobs[tid := Job(threads[tid].req.actionID, e.spawn.value,
        Running)] else jobs;
      && UploadOk(threads[tid := e.t], js, procs, Appended(log, ev), tid)
      && (e.t.pc.Gone? ==> UploadOk(threads - {tid}, js, procs, Appended(log, ev), tid))
  {
  }

  lemma CommitMayFollow(cfg: Config, s: State, tid: Tid, e: Effect)
    requires CloseInv(cfg, s) && tid in s.threads && LogEffect(s.threads[tid], e) && e.event.Some?
    ensures MayFollow(s.log, EventOf(e.event.value, tid, s.threads[tid].req.actionID))
  {
    RunningIsOpen(cfg, s, tid);
    hide AsyncInv;
    hide Ordered;
    assert UploadOk(s.threads, s.jobs, s.procs, s.log, tid);
  }

  lemma OthersStanding(s: State, tid: Tid, e: Effect, ev: Option<Event>, x: Tid)
    requires tid in s.threads && tid.pid in s.procs && x != tid && !About(ev, x)
    requires (ev.Some? ==> !ev.value.InnerClosed?)
    requires UploadOk(s.threads, s.jobs, s.procs, s.log, x)
    ensures var js := if e.spawn.Some? then s.jobs[tid := Job(s.threads[tid].req.actionID, e.spawn.value,
        Running)] else s.jobs;
      && UploadOk(s.threads[tid := e.t], js, s.procs, Appended(s.log, ev), x)
      && UploadOk(s.threads - {tid}, js, s.procs, Appended(s.log, ev), x)
  {
    StandingUnnoticed(s.threads, s.jobs, s.procs, s.log, ev, x);
  }

  lemma CommitUploads(cfg: Config, s: State, tid: Tid, e: Effect, ev: Option<Event>, x: Tid)
    requires CloseInv(cfg, s) && tid in s.threads && LogEffect(s.threads[tid], e)
    requires ev == if e.event.Some? then Some(EventOf(e.event.value, tid, s.threads[tid].req.actionID)) else None
    ensures var u := Commit(cfg, s, tid, e); UploadOk(u.threads, u.jobs, u.procs, Appended(s.log, ev), x)
  {
    RunningIsOpen(cfg, s, tid);
    assert UploadOk(s.threads, s.jobs, s.procs, s.log, x);
    hide AsyncInv;
    hide Ordered;
    hide ClosedOk;
    if x == tid {
      MoverStanding(s.threads, s.jobs, s.procs, s.log, tid, e, ev);
    } else {
      OthersStanding(s, tid, e, ev, x);
    }
    hide StandingOf;
    var u := Commit(cfg, s, tid, e);
    StandingAlike(u.threads, u.jobs, s.procs, Appended(s.log, ev), tid.pid, u.procs[tid.pid], x);
  }

  lemma CommitLogs(cfg: Config, s: State, tid: Tid, e: Effect)
    requires CloseInv(cfg, s) && tid in s.threads && LogEffect(s.threads[tid], e)
    ensures LogOk(Commit(cfg, s, tid, e))
  {
    RunningIsOpen(cfg, s, tid);
    hide AsyncInv;
    hide Ordered;
    hide UploadOk;
    hide ClosedOk;
    hide MayFollow;
    var u := Commit(cfg, s, tid, e);
    var ev := if e.event.Some? then Some(EventOf(e.event.value, tid, s.threads[tid].req.actionID)) else None;
    assert u.log == Appended(s.log, ev);
    if e.event.Some? {
      CommitMayFollow(cfg, s, tid, e);
      AppendOrdered(s.log, ev.value);
    }
    forall x ensures UploadOk(u.threads, u.jobs, u.procs, u.log, x) {
      CommitUploads(cfg, s, tid, e, ev, x);
    }
    forall pid ensures ClosedOk(u.procs, u.log, pid) {
      UnclosedUnnoticed(s.log, ev, s.procs, u.procs, pid);
    }
  }

  /** What a goroutine's action means for the log. */
  predicate JobLogEffect(j: Job, p: Proc, tid: Tid, e: JobEffect) {
    && (j.pc.Running? ==> About(e.event, tid) && e.event.value.InnerPut? && e.pc.Some? && !e.pc.value.Running?)
    && (!j.pc.Running? ==> e.event.None? && (e.pc.Some? ==> !e.pc.value.Running?))
    && Alike(p, e.p)
  }

  lemma AdvanceJobLogs(j: Job, p: Proc, tid: Tid, c: Choice)
    requires AdvanceJob(j, p, tid, c).Some?
    ensures JobLogEffect(j, p, tid, AdvanceJob(j, p, tid, c).value)
  {
  }

  lemma JobMayFollow(cfg: Config, s: State, tid: Tid, e: JobEffect)
    requires CloseInv(cfg, s) && tid in s.jobs && tid.pid in s.procs
    requires JobLogEffect(s.jobs[tid], s.procs[tid.pid], tid, e) && e.event.Some?
    ensures MayFollow(s.log, e.event.value)
  {
    RunningIsOpen(cfg, s, tid);
    hide AsyncInv;
    hide Ordered;
    assert UploadOk(s.threads, s.jobs, s.procs, s.log, tid);
  }

  lemma JobStanding(threads: Threads, jobs: Jobs, p: Proc, procs: Procs, log: seq<Event>, tid: Tid, e: JobEffect)
    requires tid in jobs && JobLogEffect(jobs[tid], p, tid, e) && UploadOk(threads, jobs, procs, log, tid)
    ensures UploadOk(threads, JobsAfter(jobs, tid, e), procs, Appended(log, e.event), tid)
  {
  }

  lemma CommitJobUploads(s: State, tid: Tid, e: JobEffect, x: Tid)
    requires LogOk(s) && tid in s.jobs && tid.pid in s.procs && JobLogEffect(s.jobs[tid], s.procs[tid.pid], tid, e)
    ensures UploadOk(s.threads, JobsAfter(s.jobs, tid, e), s.procs[tid.pid := e.p], Appended(s.log, e.event), x)
  {
    hide Ordered;
    hide ClosedOk;
    assert UploadOk(s.threads, s.jobs, s.procs, s.log, x);
    if x == tid {
      JobStanding(s.threads, s.jobs, s.procs[tid.pid], s.procs, s.log, tid, e);
    } else {
      StandingUnnoticed(s.threads, s.jobs, s.procs, s.log, e.event, x);
      assert StandingOf(s.threads, JobsAfter(s.jobs, tid, e), s.procs, Appended(s.log, e.event), x)
          == StandingOf(s.threads, s.jobs, s.procs, Appended(s.log, e.event), x);
    }
    StandingAlike(s.threads, JobsAfter(s.jobs, tid, e), s.procs, Appended(s.log, e.event), tid.pid, e.p, x);
  }

  lemma CommitJobLogs(cfg: Config, s: State, tid: Tid, e: JobEffect)
    requires CloseInv(cfg, s) && tid in s.jobs && tid.pid in s.procs
    requires JobLogEffect(s.jobs[tid], s.procs[tid.pid], tid, e)
    ensures LogOk(CommitJob(s, tid, e))
  {
    hide AsyncInv;
    hide Ordered;
    hide UploadOk;
    hide ClosedOk;
    hide MayFollow;
    if e.event.Some? {
      JobMayFollow(cfg, s, tid, e);
      AppendOrdered(s.log, e.event.value);
    }
    var u := CommitJob(s, tid, e);
    assert u.log == Appended(s.log, e.event) && u.jobs == JobsAfter(s.jobs, tid, e);
    forall x ensures UploadOk(u.threads, u.jobs, u.procs, u.log, x) {
      CommitJobUploads(s, tid, e, x);
    }
    forall pid ensures ClosedOk(u.procs, u.log, pid) {
      UnclosedUnnoticed(s.log, e.event, s.procs, u.procs, pid);
    }
  }

  // ---------------------------------------------------------------- Run's own actions

  lemma ProcMayFollow(cfg: Config, s: State, pid: nat, e: ProcEffect)
    requires CloseInv(cfg, s) && pid in s.procs && AdvanceProc(s.procs[pid], pid, Idle(s.threads, pid)) == Some(e)
    requires e.event.Some?
    ensures MayFollow(s.log, e.event.value)
  {
    assert ClosedOk(s.procs, s.log, pid);
  }

  /** Starting a handler under a new index. */
  lemma SpawnStanding(threads: Threads, jobs: Jobs, procs: Procs, log: seq<Event>, pid: nat, r: Request, x: Tid)
    requires UploadOk(threads, jobs, procs, log, x) && pid in procs
    ensures var p := procs[pid];
      UploadOk(threads[Tid(pid, p.next) := NewThread(r)], jobs, procs[pid := p.(next := p.next + 1)], log, x)
  {
  }

  /** Closing the inner backend: every upload accepted by this process is done. */
  lemma ClosingStanding(cfg: Config, s: State, pid: nat, q: Proc, x: Tid)
    requires CloseInv(cfg, s) && pid in s.procs && s.procs[pid].phase.Closing? && s.procs[pid].wg == 0
    requires q.next == s.procs[pid].next && q.phase.Replying?
    ensures UploadOk(s.threads, s.jobs, s.procs[pid := q], s.log + [InnerClosed(pid)], x)
  {
    ClosedMeansDrained(cfg, s, pid);
    assert UploadOk(s.threads, s.jobs, s.procs, s.log, x);
    hide AsyncInv;
    hide Ordered;
  }

  /** Run moves on to another phase, or the process exits with the goroutines it has left. */
  lemma PhaseStanding(threads: Threads, jobs: Jobs, procs: Procs, log: seq<Event>, pid: nat, q: Proc, x: Tid)
    requires UploadOk(threads, jobs, procs, log, x) && pid in procs && q.next >= procs[pid].next
    requires Active(procs[pid]) || !Active(q)
    requires x in jobs && x.pid == pid ==> InnerClosed(pid) !in log
    ensures Active(q) ==> UploadOk(threads, jobs, procs[pid := q], log, x)
    ensures !Active(q) ==> UploadOk(threads, DropJobs(jobs, pid), procs[pid := q], log, x)
    ensures !Active(q) ==> UploadOk(DropThreads(threads, pid), DropJobs(jobs, pid), procs[pid := q], log, x)
  {
  }

  lemma AnswerStanding(threads: Threads, jobs: Jobs, procs: Procs, log: seq<Event>, pid: nat, x: Tid)
    requires UploadOk(threads, jobs, procs, log, x)
    ensures UploadOk(threads, jobs, procs, log + [CloseAnswered(pid)], x)
  {
    StandingUnnoticed(threads, jobs, procs, log, Some(CloseAnswered(pid)), x);
  }

  lemma SpawnUploads(s: State, pid: nat, e: ProcEffect, x: Tid)
    requires pid in s.procs && AdvanceProc(s.procs[pid], pid, Idle(s.threads, pid)) == Some(e) && e.spawn.Some?
    requires UploadOk(s.threads, s.jobs, s.procs, s.log, x)
    ensures UploadOk(CommitProc(s, pid, e).threads, CommitProc(s, pid, e).jobs, CommitProc(s, pid, e).procs,
        CommitProc(s, pid, e).log, x)
  {
    hide UploadOk;
    hide Idle;
    SpawnStanding(s.threads, s.jobs, s.procs, s.log, pid, s.procs[pid].input[s.procs[pid].next], x);
  }

  lemma ClosingUploads(cfg: Config, s: State, pid: nat, e: ProcEffect, x: Tid)
    requires CloseInv(cfg, s) && pid in s.procs && AdvanceProc(s.procs[pid], pid, Idle(s.threads, pid)) == Some(e)
    requires s.procs[pid].phase.Closing?
    ensures UploadOk(CommitProc(s, pid, e).threads, CommitProc(s, pid, e).jobs, CommitProc(s, pid, e).procs,
        CommitProc(s, pid, e).log, x)
  {
    hide CloseInv;
    hide UploadOk;
    hide Idle;
    ClosingStanding(cfg, s, pid, e.p, x);
  }

  lemma ProcUploads(cfg: Config, s: State, pid: nat, e: ProcEffect, x: Tid)
    requires CloseInv(cfg, s) && pid in s.procs && AdvanceProc(s.procs[pid], pid, Idle(s.threads, pid)) == Some(e)
    ensures UploadOk(CommitProc(s, pid, e).threads, CommitProc(s, pid, e).jobs, CommitProc(s, pid, e).procs,
        CommitProc(s, pid, e).log, x)
  {
    hide AsyncInv;
    hide Ordered;
    hide ClosedOk;
    hide UploadOk;
    hide Idle;
    hide AdvanceProc;
    hide CommitProc;
    assert UploadOk(s.threads, s.jobs, s.procs, s.log, x);
    if e.spawn.Some? {
      SpawnUploads(s, pid, e, x);
    } else if s.procs[pid].phase.Closing? {
      ClosingUploads(cfg, s, pid, e, x);
    } else {
      if x in s.jobs {
        RunningIsOpen(cfg, s, x);
      }
      QuietUploads(s, pid, e, x);
    }
  }

  lemma QuietUploads(s: State, pid: nat, e: ProcEffect, x: Tid)
    requires pid in s.procs && AdvanceProc(s.procs[pid], pid, Idle(s.threads, pid)) == Some(e)
    requires e.spawn.None? && !s.procs[pid].phase.Closing?
    requires UploadOk(s.threads, s.jobs, s.procs, s.log, x)
    requires x in s.jobs && x.pid == pid ==> InnerClosed(pid) !in s.log
    ensures UploadOk(CommitProc(s, pid, e).threads, CommitProc(s, pid, e).jobs, CommitProc(s, pid, e).procs,
        CommitProc(s, pid, e).log, x)
  {
    hide UploadOk;
    hide Idle;
    hide DropJobs;
    hide DropThreads;
    PhaseStanding(s.threads, s.jobs, s.procs, s.log, pid, e.p, x);
    if e.event.Some? {
      AnswerStanding(s.threads, DropJobs(s.jobs, pid), s.procs[pid := e.p], s.log, pid, x);
    }
  }

  lemma ProcClosed(s: State, pid: nat, e: ProcEffect, q: nat)
    requires LogOk(s) && pid in s.procs && AdvanceProc(s.procs[pid], pid, Idle(s.threads, pid)) == Some(e)
    ensures ClosedOk(CommitProc(s, pid, e).procs, CommitProc(s, pid, e).log, q)
  {
    hide Ordered;
    hide UploadOk;
    hide Idle;
    assert ClosedOk(s.procs, s.log, q) && ClosedOk(s.procs, s.log, pid);
  }

  lemma ProcLogs(cfg: Config, s: State, pid: nat, e: ProcEffect)
    requires CloseInv(cfg, s) && pid in s.procs && AdvanceProc(s.procs[pid], pid, Idle(s.threads, pid)) == Some(e)
    ensures LogOk(CommitProc(s, pid, e))
  {
    hide AsyncInv;
    hide Ordered;
    hide UploadOk;
    hide ClosedOk;
    hide Idle;
    hide MayFollow;
    hide AdvanceProc;
    var u := CommitProc(s, pid, e);
    if e.event.Some? {
      ProcMayFollow(cfg, s, pid, e);
      AppendOrdered(s.log, e.event.value);
    }
    forall x ensures UploadOk(u.threads, u.jobs, u.procs, u.log, x) {
      ProcUploads(cfg, s, pid, e, x);
    }
    forall q ensures ClosedOk(u.procs, u.log, q) {
      ProcClosed(s, pid, e, q);
    }
  }

  lemma KillLogs(cfg: Config, s: State, pid: nat)
    requires CloseInv(cfg, s) && StepKill(s, pid).Some?
    ensures LogOk(StepKill(s, pid).value)
  {
    var u := StepKill(s, pid).value;
    forall x ensures UploadOk(u.threads, u.jobs, u.procs, u.log, x) {
      if x in s.jobs {
        RunningIsOpen(cfg, s, x);
      }
      hide AsyncInv;
      hide Ordered;
      assert UploadOk(s.threads, s.jobs, s.procs, s.log, x);
      PhaseStanding(s.threads, s.jobs, s.procs, s.log, pid, u.procs[pid], x);
    }
    hide AsyncInv;
    hide Ordered;
    hide UploadOk;
    forall q ensures ClosedOk(u.procs, u.log, q) {
      assert ClosedOk(s.procs, s.log, q);
    }
  }

  // ---------------------------------------------------------------- every run

  lemma ThreadKeepsClose(cfg: Config, s: State, tid: Tid, c: Choice)
    requires CloseInv(cfg, s) && StepThread(cfg, s, tid, c).Some?
    ensures CloseInv(cfg, StepThread(cfg, s, tid, c).value)
  {
    ThreadKeepsAsync(cfg, s, tid, c);
    hide AsyncInv;
    hide LogOk;
    var t := s.threads[tid];
    AdvanceLogs(cfg, t, At(s.files, t.req.actionID), Get(s.remote, t.req.actionID), Full(cfg, s.procs[tid.pid]), c);
    CommitLogs(cfg, s, tid, EffectOf(cfg, s, tid, c).value);
  }

  lemma JobKeepsClose(cfg: Config, s: State, tid: Tid, c: Choice)
    requires CloseInv(cfg, s) && StepJob(s, tid, c).Some?
    ensures CloseInv(cfg, StepJob(s, tid, c).value)
  {
    JobKeepsAsync(cfg, s, tid, c);
    hide AsyncInv;
    hide LogOk;
    AdvanceJobLogs(s.jobs[tid], s.procs[tid.pid], tid, c);
    CommitJobLogs(cfg, s, tid, AdvanceJob(s.jobs[tid], s.procs[tid.pid], tid, c).value);
  }

  lemma ProcKeepsClose(cfg: Config, s: State, pid: nat)
    requires CloseInv(cfg, s) && StepProc(s, pid).Some?
    ensures CloseInv(cfg, StepProc(s, pid).value)
  {
    ProcKeepsAsync(cfg, s, pid);
    hide AsyncInv;
    hide LogOk;
    ProcLogs(cfg, s, pid, AdvanceProc(s.procs[pid], pid, Idle(s.threads, pid)).value);
  }

  lemma StepKeepsClose(cfg: Config, s: State, l: Label)
    requires CloseInv(cfg, s) && Step(cfg, s, l).Some?
    ensures CloseInv(cfg, Step(cfg, s, l).value)
  {
    match l
    case ThreadL(tid, c) => ThreadKeepsClose(cfg, s, tid, c);
    case JobL(tid, c) => JobKeepsClose(cfg, s, tid, c);
    case ProcL(pid) => ProcKeepsClose(cfg, s, pid);
    case KillL(pid) =>
      KillKeepsAsync(cfg, s, pid);
      KillLogs(cfg, s, pid);
  }

  lemma {:induction false} RunKeepsClose(cfg: Config, s: State, ls: seq<Label>)
    requires CloseInv(cfg, s) && Run(cfg, s, ls).Some?
    ensures CloseInv(cfg, Run(cfg, s, ls).value)
    decreases |ls|
  {
    hide CloseInv;
    if ls != [] {
      StepKeepsClose(cfg, s, ls[0]);
      RunKeepsClose(cfg, Step(cfg, s, ls[0]).value, ls[1..]);
    }
  }

  lemma InitIsClean(cfg: Config, s: State)
    requires Init(cfg, s)
    ensures CloseInv(cfg, s)
  {
    InitIsAsync(cfg, s);
  }

  /**
    In every run that answers a close command, the inner backend was closed before the answer, and every upload the
    asynchronous writer had accepted reached the inner backend exactly once, after it was accepted and before that
    close.
   */
  lemma CloseDrains(cfg: Config, s0: State, ls: seq<Label>, pid: nat, m: nat) returns (k: nat)
    requires Init(cfg, s0) && Run(cfg, s0, ls).Some?
    requires var log := Run(cfg, s0, ls).value.log; m < |log| && log[m] == CloseAnswered(pid)
    ensures var log := Run(cfg, s0, ls).value.log;
      && k < m && log[k] == InnerClosed(pid)
      && (forall i :: 0 <= i < |log| && log[i].Accepted? && log[i].tid.pid == pid ==> UploadedOnce(log, i, k))
  {
    InitIsClean(cfg, s0);
    RunKeepsClose(cfg, s0, ls);
    var s := Run(cfg, s0, ls).value;
    var log := s.log;
    hide AsyncInv;
    assert MayFollow(log[..m], log[m]);
    k :| 0 <= k < m && log[k] == InnerClosed(pid);
    forall i | 0 <= i < |log| && log[i].Accepted? && log[i].tid.pid == pid
      ensures UploadedOnce(log, i, k)
    {
      assert UploadOk(s.threads, s.jobs, s.procs, log, log[i].tid);
      DrainedBefore(log, i, k);
    }
  }

  /** The upload accepted at position i is put exactly once, between i and k. */
  predicate UploadedOnce(log: seq<Event>, i: nat, k: nat)
    requires i < |log| && log[i].Accepted?
  {
    exists j :: i < j < k && j < |log| && log[j].InnerPut? && log[j].tid == log[i].tid
      && forall j' :: 0 <= j' < |log| && log[j'].InnerPut? && log[j'].tid == log[i].tid ==> j' == j
  }

  lemma Earlier(log: seq<Event>, a: nat, b: nat)
    requires Ordered(log) && a < b < |log|
    ensures log[a] in log[..b] && MayFollow(log[..b], log[b])
  {
    assert log[..b][a] == log[a];
  }

  lemma PutsAreUnique(log: seq<Event>, j: nat, i: nat)
    requires Ordered(log) && i < |log| && j < |log| && log[i].InnerPut? && log[j].InnerPut? && log[i].tid == log[j].tid
    ensures i == j
  {
    if i < j {
      Earlier(log, i, j);
    } else if j < i {
      Earlier(log, j, i);
    }
  }

  lemma PutsAfterAccept(log: seq<Event>, i: nat, j: nat)
    requires Ordered(log) && i < |log| && j < |log| && log[i].Accepted? && log[j].InnerPut? && log[i].tid == log[j].tid
    ensures i < j
  {
    if j < i {
      Earlier(log, j, i);
    }
  }

  lemma PutsBeforeClose(log: seq<Event>, j: nat, k: nat)
    requires Ordered(log) && j < |log| && k < |log| && log[j].InnerPut? && log[k] == InnerClosed(log[j].tid.pid)
    ensures j < k
  {
    if k < j {
      Earlier(log, k, j);
    }
  }

  lemma DrainedBefore(log: seq<Event>, i: nat, k: nat)
    requires Ordered(log) && i < |log| && log[i].Accepted? && PutDone(log, log[i].tid)
    requires k < |log| && log[k] == InnerClosed(log[i].tid.pid)
    ensures UploadedOnce(log, i, k)
  {
    var tid := log[i].tid;
    var j :| 0 <= j < |log| && log[j].InnerPut? && log[j].tid == tid;
    forall j' | 0 <= j' < |log| && log[j'].InnerPut? && log[j'].tid == tid ensures j' == j {
      PutsAreUnique(log, j, j');
    }
    PutsAfterAccept(log, i, j);
    PutsBeforeClose(log, j, k);
  }
}
