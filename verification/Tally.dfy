/** What the asynchronous writer's success and failure counters count (async_backend.go:61-85). */
module Tally {
  import opened Basics
  import opened Disk
  import opened Protocol
  import opened Exclusion
  import opened Drain

  /** How often the inner backend's Put has returned with this outcome to goroutines of `pid`. */
  function Returned(log: seq<Event>, pid: nat, ok: bool): nat {
    if log == [] then 0
    else Returned(log[..|log| - 1], pid, ok) + (if IsReturn(log[|log| - 1], pid, ok) then 1 else 0)
  }

  predicate IsReturn(e: Event, pid: nat, ok: bool) {
    e.InnerPut? && e.tid.pid == pid && e.ok == ok
  }

  /** Goroutines of `pid` that have this outcome and have not counted it. */
  function Telling(jobs: Jobs, pid: nat, ok: bool): set<Tid> {
    set tid | tid in jobs && tid.pid == pid && jobs[tid].pc == Counting(ok)
  }

  predicate Told(p: Proc, pid: nat, jobs: Jobs, log: seq<Event>) {
    && p.succeeded + |Telling(jobs, pid, true)| == Returned(log, pid, true)
    && p.failed + |Telling(jobs, pid, false)| == Returned(log, pid, false)
  }

  predicate AllTold(procs: Procs, jobs: Jobs, log: seq<Event>) {
    forall pid :: pid in procs && Active(procs[pid]) ==> Told(procs[pid], pid, jobs, log)
  }

  ghost predicate TallyInv(cfg: Config, s: State) {
    AsyncInv(cfg, s) && AllTold(s.procs, s.jobs, s.log)
  }

  lemma Logged(log: seq<Event>, e: Event, pid: nat, ok: bool)
    ensures Returned(log + [e], pid, ok) == Returned(log, pid, ok) + if IsReturn(e, pid, ok) then 1 else 0
  {
    assert (log + [e])[..|log|] == log;
  }

  /** With asynchronous puts no handler's own action returns from the inner backend. */
  lemma HandlersNeverReturn(cfg: Config, t: Thread, v: View, rem: Option<Record>, full: bool, c: Choice)
    requires cfg.mode.Async? && PcOk(cfg, t) && Advance(cfg, t, v, rem, full, c).Some?
    ensures var e := Advance(cfg, t, v, rem, full, c).value;
      (e.event.Some? ==> !e.event.value.EvInnerPut?) && (e.spawn.Some? ==> t.pc.Spawning?)
  {
  }

  lemma StartedTellsNothing(jobs: Jobs, tid: Tid, j: Job, pid: nat, ok: bool)
    requires tid !in jobs && j.pc.Running?
    ensures Telling(jobs[tid := j], pid, ok) == Telling(jobs, pid, ok)
  {
  }

  lemma CommitTold(cfg: Config, s: State, tid: Tid, e: Effect)
    requires AllTold(s.procs, s.jobs, s.log) && tid in s.threads && tid.pid in s.procs
    requires (e.event.Some? ==> !e.event.value.EvInnerPut?) && (e.spawn.Some? ==> tid !in s.jobs)
    ensures var u := Commit(cfg, s, tid, e); AllTold(u.procs, u.jobs, u.log)
  {
    var u := Commit(cfg, s, tid, e);
    var id := s.threads[tid].req.actionID;
    forall pid | pid in u.procs && Active(u.procs[pid]) ensures Told(u.procs[pid], pid, u.jobs, u.log) {
      assert Told(s.procs[pid], pid, s.jobs, s.log);
      assert u.procs[pid].succeeded == s.procs[pid].succeeded && u.procs[pid].failed == s.procs[pid].failed;
      if e.spawn.Some? {
        StartedTellsNothing(s.jobs, tid, Job(id, e.spawn.value, Running), pid, true);
        StartedTellsNothing(s.jobs, tid, Job(id, e.spawn.value, Running), pid, false);
      }
      if e.event.Some? {
        Logged(s.log, EventOf(e.event.value, tid, id), pid, true);
        Logged(s.log, EventOf(e.event.value, tid, id), pid, false);
      }
      hide Telling;
      hide Returned;
    }
  }

  lemma ThreadTells(cfg: Config, s: State, tid: Tid, c: Choice)
    requires cfg.mode.Async? && TallyInv(cfg, s) && StepThread(cfg, s, tid, c).Some?
    ensures TallyInv(cfg, StepThread(cfg, s, tid, c).value)
  {
    var t := s.threads[tid];
    var e := EffectOf(cfg, s, tid, c).value;
    assert PcOk(cfg, t) && (tid in s.jobs ==> JobOwned(s.threads, s.procs, tid));
    HandlersNeverReturn(cfg, t, At(s.files, t.req.actionID), Get(s.remote, t.req.actionID), Full(cfg,
        s.procs[tid.pid]), c);
    ThreadKeepsAsync(cfg, s, tid, c);
    hide Advance;
    hide AsyncInv;
    hide Commit;
    hide AllTold;
    CommitTold(cfg, s, tid, e);
  }

  lemma SameButOne(was: set<Tid>, now: set<Tid>, tid: Tid)
    requires forall x :: x != tid ==> (x in was <==> x in now)
    ensures |now| + (if tid in was then 1 else 0) == |was| + (if tid in now then 1 else 0)
  {
    assert was - {tid} == now - {tid};
    assert tid in was ==> was == (was - {tid}) + {tid};
    assert tid in now ==> now == (now - {tid}) + {tid};
    assert tid !in was ==> was - {tid} == was;
    assert tid !in now ==> now - {tid} == now;
  }

  /** A goroutine that hears the outcome has it to tell; one that counts it has told it. */
  lemma TellingAfter(jobs: Jobs, tid: Tid, pc: Option<JobPc>, pid: nat, ok: bool)
    requires tid in jobs
    ensures var after := if pc.None? then jobs - {tid} else jobs[tid := jobs[tid].(pc := pc.value)];
      |Telling(after, pid, ok)| + (if tid.pid == pid && jobs[tid].pc == Counting(ok) then 1 else 0)
        == |Telling(jobs, pid, ok)| + (if tid.pid == pid && pc == Some(Counting(ok)) then 1 else 0)
  {
    var after := if pc.None? then jobs - {tid} else jobs[tid := jobs[tid].(pc := pc.value)];
    var was, now := Telling(jobs, pid, ok), Telling(after, pid, ok);
    assert tid in was <==> tid.pid == pid && jobs[tid].pc == Counting(ok);
    assert tid in now <==> tid.pid == pid && pc == Some(Counting(ok));
    forall x | x != tid ensures x in was <==> x in now {}
    hide Telling;
    SameButOne(was, now, tid);
  }

  /** A goroutine's action changes the counter of its outcome when it counts, and logs its outcome when it hears it. */
  lemma JobEffectOnce(j: Job, p: Proc, tid: Tid, c: Choice, e: JobEffect, pid: nat, ok: bool)
    requires AdvanceJob(j, p, tid, c) == Some(e)
    ensures var told := if j.pc == Counting(ok) then 1 else 0;
      if ok then e.p.succeeded == p.succeeded + told else e.p.failed == p.failed + told
    ensures e.p.phase == p.phase
    ensures (e.event.Some? && IsReturn(e.event.value, pid, ok)) <==> tid.pid == pid && e.pc == Some(Counting(ok))
  {
  }

  lemma JobCountsOnce(s: State, tid: Tid, c: Choice, e: JobEffect, pid: nat, ok: bool)
    requires tid in s.jobs && tid.pid in s.procs && AdvanceJob(s.jobs[tid], s.procs[tid.pid], tid, c) == Some(e)
    ensures var j := s.jobs[tid]; var p := s.procs[tid.pid];
      var told := if tid.pid == pid && j.pc == Counting(ok) then 1 else 0;
      var heard := if tid.pid == pid && e.pc == Some(Counting(ok)) then 1 else 0;
      && (tid.pid == pid ==>
            (if ok then e.p.succeeded == p.succeeded + told else e.p.failed == p.failed + told)
            && e.p.phase == p.phase)
      && Returned(CommitJob(s, tid, e).log, pid, ok) == Returned(s.log, pid, ok) + heard
  {
    JobEffectOnce(s.jobs[tid], s.procs[tid.pid], tid, c, e, pid, ok);
    hide AdvanceJob;
    if e.event.Some? {
      Logged(s.log, e.event.value, pid, ok);
    }
    hide Returned;
    hide IsReturn;
  }

  lemma CommitJobTold(s: State, tid: Tid, c: Choice, e: JobEffect, pid: nat)
    requires tid in s.jobs && tid.pid in s.procs && AdvanceJob(s.jobs[tid], s.procs[tid.pid], tid, c) == Some(e)
    requires AllTold(s.procs, s.jobs, s.log) && pid in s.procs
    ensures var u := CommitJob(s, tid, e); Active(u.procs[pid]) ==> Told(u.procs[pid], pid, u.jobs, u.log)
  {
    JobCountsOnce(s, tid, c, e, pid, true);
    JobCountsOnce(s, tid, c, e, pid, false);
    TellingAfter(s.jobs, tid, e.pc, pid, true);
    TellingAfter(s.jobs, tid, e.pc, pid, false);
    hide AdvanceJob;
    hide Telling;
    hide Returned;
    if Active(s.procs[pid]) {
      assert Told(s.procs[pid], pid, s.jobs, s.log);
    }
  }

  lemma JobTells(cfg: Config, s: State, tid: Tid, c: Choice)
    requires TallyInv(cfg, s) && StepJob(s, tid, c).Some?
    ensures TallyInv(cfg, StepJob(s, tid, c).value)
  {
    JobKeepsAsync(cfg, s, tid, c);
    hide AsyncInv;
    var e := AdvanceJob(s.jobs[tid], s.procs[tid.pid], tid, c).value;
    var u := CommitJob(s, tid, e);
    assert u.procs.Keys == s.procs.Keys;
    hide AdvanceJob;
    hide Told;
    hide CommitJob;
    forall pid | pid in u.procs && Active(u.procs[pid]) ensures Told(u.procs[pid], pid, u.jobs, u.log) {
      CommitJobTold(s, tid, c, e, pid);
    }
  }

  lemma ProcCountsNothing(p: Proc, pid: nat, idle: bool)
    requires AdvanceProc(p, pid, idle).Some?
    ensures var e := AdvanceProc(p, pid, idle).value;
      && e.p.succeeded == p.succeeded && e.p.failed == p.failed && Active(p)
      && (e.event.Some? ==> !e.event.value.InnerPut?)
  {
  }

  lemma CommitProcTold(s: State, pid: nat, e: ProcEffect)
    requires AllTold(s.procs, s.jobs, s.log) && pid in s.procs && Active(s.procs[pid])
    requires e.p.succeeded == s.procs[pid].succeeded && e.p.failed == s.procs[pid].failed
    requires e.event.Some? ==> !e.event.value.InnerPut?
    ensures var u := CommitProc(s, pid, e); AllTold(u.procs, u.jobs, u.log)
  {
    var u := CommitProc(s, pid, e);
    forall x | x in u.procs && Active(u.procs[x]) ensures Told(u.procs[x], x, u.jobs, u.log) {
      assert Told(s.procs[x], x, s.jobs, s.log);
      DroppedTellNothing(s.jobs, pid, x);
      if e.event.Some? {
        Logged(s.log, e.event.value, x, true);
        Logged(s.log, e.event.value, x, false);
      }
      hide Telling;
      hide Returned;
      hide DropJobs;
    }
  }

  /** Run's own actions: nobody else's goroutines go, and nothing is counted. */
  lemma ProcTells(cfg: Config, s: State, pid: nat)
    requires TallyInv(cfg, s) && StepProc(s, pid).Some?
    ensures TallyInv(cfg, StepProc(s, pid).value)
  {
    ProcKeepsAsync(cfg, s, pid);
    hide AsyncInv;
    hide AllTold;
    hide Idle;
    ProcCountsNothing(s.procs[pid], pid, Idle(s.threads, pid));
    var e := AdvanceProc(s.procs[pid], pid, Idle(s.threads, pid)).value;
    hide AdvanceProc;
    CommitProcTold(s, pid, e);
    hide CommitProc;
  }

  lemma DroppedTellNothing(jobs: Jobs, gone: nat, pid: nat)
    ensures pid != gone ==> Telling(DropJobs(jobs, gone), pid, true) == Telling(jobs, pid, true)
    ensures pid != gone ==> Telling(DropJobs(jobs, gone), pid, false) == Telling(jobs, pid, false)
  {
  }

  lemma KillTells(cfg: Config, s: State, pid: nat)
    requires TallyInv(cfg, s) && StepKill(s, pid).Some?
    ensures TallyInv(cfg, StepKill(s, pid).value)
  {
    KillKeepsAsync(cfg, s, pid);
    hide AsyncInv;
    var u := StepKill(s, pid).value;
    forall x | x in u.procs && Active(u.procs[x]) ensures Told(u.procs[x], x, u.jobs, u.log) {
      assert Told(s.procs[x], x, s.jobs, s.log);
      DroppedTellNothing(s.jobs, pid, x);
      hide Telling;
      hide DropJobs;
    }
  }

  lemma StepTells(cfg: Config, s: State, l: Label)
    requires cfg.mode.Async? && TallyInv(cfg, s) && Step(cfg, s, l).Some?
    ensures TallyInv(cfg, Step(cfg, s, l).value)
  {
    hide TallyInv;
    match l
    case ThreadL(tid, c) => ThreadTells(cfg, s, tid, c);
    case JobL(tid, c) => JobTells(cfg, s, tid, c);
    case ProcL(pid) => ProcTells(cfg, s, pid);
    case KillL(pid) => KillTells(cfg, s, pid);
  }

  lemma {:induction false} RunTells(cfg: Config, s: State, ls: seq<Label>)
    requires cfg.mode.Async? && TallyInv(cfg, s) && Run(cfg, s, ls).Some?
    ensures TallyInv(cfg, Run(cfg, s, ls).value)
    decreases |ls|
  {
    hide TallyInv;
    hide Step;
    if ls != [] {
      StepTells(cfg, s, ls[0]);
      RunTells(cfg, Step(cfg, s, ls[0]).value, ls[1..]);
    }
  }

  lemma InitTells(cfg: Config, s: State)
    requires Init(cfg, s)
    ensures TallyInv(cfg, s)
  {
    InitIsAsync(cfg, s);
    hide AsyncInv;
    forall pid | pid in s.procs ensures Told(s.procs[pid], pid, s.jobs, s.log) {
      assert Telling(s.jobs, pid, true) == {} && Telling(s.jobs, pid, false) == {};
    }
  }

  /**
    The counters tell successes from failures: in every run of the asynchronous writer they are what the inner backend
    has returned, less the goroutines about to count; and once the wait group is at zero, exactly that.
   */
  lemma CountersTellOutcomes(cfg: Config, s0: State, ls: seq<Label>, pid: nat)
    requires cfg.mode.Async? && Init(cfg, s0) && Run(cfg, s0, ls).Some? && pid in Run(cfg, s0, ls).value.procs
    requires Active(Run(cfg, s0, ls).value.procs[pid])
    ensures var s := Run(cfg, s0, ls).value; var p := s.procs[pid];
      && p.succeeded + |Telling(s.jobs, pid, true)| == Returned(s.log, pid, true)
      && p.failed + |Telling(s.jobs, pid, false)| == Returned(s.log, pid, false)
      && (p.wg == 0 ==> p.succeeded == Returned(s.log, pid, true) && p.failed == Returned(s.log, pid, false))
  {
    InitTells(cfg, s0);
    RunTells(cfg, s0, ls);
    var s := Run(cfg, s0, ls).value;
    assert Told(s.procs[pid], pid, s.jobs, s.log);
    if s.procs[pid].wg == 0 {
      ClosedMeansDrained(cfg, s, pid);
      assert Telling(s.jobs, pid, true) == {} && Telling(s.jobs, pid, false) == {};
    }
    hide Run;
    hide AsyncInv;
    hide Init;
  }
}
