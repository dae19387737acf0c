/** The asynchronous writer: its semaphore, wait group and counters are conserved, and closing it drains it. */
module Drain {
  import opened Basics
  import opened Disk
  import opened Protocol
  import opened Exclusion

  type Jobs = map<Tid, Job>

  // ---------------------------------------------------------------- conservation

  /** Callers of pid between taking a slot and starting the goroutine. */
  function Spawners(threads: Threads, pid: nat): set<Tid> {
    set tid | tid in threads && tid.pid == pid && threads[tid].pc.Spawning?
  }

  /** Goroutines of pid that still hold their slot. */
  function Holders(jobs: Jobs, pid: nat): set<Tid> {
    set tid | tid in jobs && tid.pid == pid && !jobs[tid].pc.Finishing?
  }

  /** Goroutines of pid not yet counted as success or failure. */
  function Uncounted(jobs: Jobs, pid: nat): set<Tid> {
    set tid | tid in jobs && tid.pid == pid && (jobs[tid].pc.Running? || jobs[tid].pc.Counting?)
  }

  /** Goroutines of pid the wait group waits for. */
  function Live(jobs: Jobs, pid: nat): set<Tid> {
    set tid | tid in jobs && tid.pid == pid
  }

  predicate Active(p: Proc) {
    !p.phase.Done? && !p.phase.Dead?
  }

  /** Slots, wait group and counters of one process agree with the goroutines that exist. */
  predicate Conserved(cfg: Config, p: Proc, pid: nat, threads: Threads, jobs: Jobs) {
    SlotsOk(cfg, p, pid, threads, jobs) && WaitOk(p, pid, jobs) && CountersOk(p, pid, jobs)
  }

  predicate SlotsOk(cfg: Config, p: Proc, pid: nat, threads: Threads, jobs: Jobs) {
    && p.tokens == |Spawners(threads, pid)| + |Holders(jobs, pid)|
    && (if cfg.mode.Async? then p.tokens <= cfg.mode.capacity else p.tokens == 0)
  }

  predicate WaitOk(p: Proc, pid: nat, jobs: Jobs) {
    p.wg == |Live(jobs, pid)|
  }

  predicate CountersOk(p: Proc, pid: nat, jobs: Jobs) {
    p.started == p.succeeded + p.failed + |Uncounted(jobs, pid)|
  }

  predicate AllConserved(cfg: Config, threads: Threads, jobs: Jobs, procs: Procs) {
    forall pid :: pid in procs && Active(procs[pid]) ==> Conserved(cfg, procs[pid], pid, threads, jobs)
  }

  predicate WaitsFor(phase: Phase) {
    phase.Reading? || phase.Draining? || phase.Closing? || phase.Exiting?
  }

  /** A goroutine belongs to a process that is still running, and to a handler that has moved on. */
  predicate JobOwned(threads: Threads, procs: Procs, tid: Tid) {
    && tid.pid in procs && tid.index < procs[tid.pid].next
    && WaitsFor(procs[tid.pid].phase)
    && (tid in threads ==> threads[tid].pc.Unlocking? || threads[tid].pc.Answering?)
  }

  predicate JobsOwned(threads: Threads, jobs: Jobs, procs: Procs) {
    forall tid :: tid in jobs ==> JobOwned(threads, procs, tid)
  }

  predicate AsyncInv(cfg: Config, s: State) {
    Base(cfg, s) && AllConserved(cfg, s.threads, s.jobs, s.procs) && JobsOwned(s.threads, s.jobs, s.procs)
  }

  /** What a handler's action means for the slots. */
  predicate SlotEffect(cfg: Config, t: Thread, full: bool, e: Effect) {
    && (e.event == Some(EvIssued(true)) <==> e.t.pc.Spawning?)
    && (e.t.pc.Spawning? ==> cfg.mode.Async? && !full && t.pc.PutCalling?)
    && (e.spawn.Some? <==> t.pc.Spawning?)
    && (t.pc.Spawning? ==> e.t.pc.Unlocking?)
    && (t.pc.Unlocking? ==> e.t.pc.Answering?)
    && (t.pc.Answering? ==> e.t.pc.Gone?)
  }

  lemma LookupSlots(cfg: Config, t: Thread, v: View, rem: Option<Record>, full: bool, c: Choice)
    requires LooksUp(t.pc) && Lookup(cfg, t, v, rem, c).Some?
    ensures SlotEffect(cfg, t, full, Lookup(cfg, t, v, rem, c).value)
  {
  }

  lemma WriteSlots(cfg: Config, t: Thread, full: bool, c: Choice)
    ensures WritesData(t.pc) && WriteData(t, c).Some? ==> SlotEffect(cfg, t, full, WriteData(t, c).value)
    ensures WritesMeta(t.pc) && WriteMeta(cfg, t, c).Some? ==> SlotEffect(cfg, t, full, WriteMeta(cfg, t, c).value)
  {
  }

  lemma FinishSlots(cfg: Config, t: Thread, full: bool, c: Choice)
    requires PcOk(cfg, t) && Finish(cfg, t, full, c).Some?
    ensures SlotEffect(cfg, t, full, Finish(cfg, t, full, c).value)
  {
  }

  lemma AdvanceSlots(cfg: Config, t: Thread, v: View, rem: Option<Record>, full: bool, c: Choice)
    requires PcOk(cfg, t) && Advance(cfg, t, v, rem, full, c).Some?
    ensures SlotEffect(cfg, t, full, Advance(cfg, t, v, rem, full, c).value)
  {
    if LooksUp(t.pc) {
      LookupSlots(cfg, t, v, rem, full, c);
    } else if WritesData(t.pc) || WritesMeta(t.pc) {
      WriteSlots(cfg, t, full, c);
    } else {
      FinishSlots(cfg, t, full, c);
    }
  }

  /** The goroutine sets of other processes do not notice a change under `tid`. */
  lemma OtherThread(threads: Threads, tid: Tid, u: Thread, pid: nat)
    requires pid != tid.pid
    ensures Spawners(threads[tid := u], pid) == Spawners(threads - {tid}, pid) == Spawners(threads, pid)
  {
  }

  lemma OtherJob(jobs: Jobs, tid: Tid, j: Job, pid: nat)
    requires pid != tid.pid
    ensures Holders(jobs[tid := j], pid) == Holders(jobs - {tid}, pid) == Holders(jobs, pid)
    ensures Uncounted(jobs[tid := j], pid) == Uncounted(jobs - {tid}, pid) == Uncounted(jobs, pid)
    ensures Live(jobs[tid := j], pid) == Live(jobs - {tid}, pid) == Live(jobs, pid)
  {
  }

  lemma SpawnersAfter(threads: Threads, tid: Tid, u: Thread)
    requires tid in threads
    ensures Spawners(threads[tid := u], tid.pid) ==
      if u.pc.Spawning? then Spawners(threads, tid.pid) + {tid} else Spawners(threads, tid.pid) - {tid}
    ensures Spawners(threads - {tid}, tid.pid) == Spawners(threads, tid.pid) - {tid}
    ensures tid in Spawners(threads, tid.pid) <==> threads[tid].pc.Spawning?
  {
  }

  lemma JobSetsAfter(jobs: Jobs, tid: Tid, j: Job)
    ensures Live(jobs[tid := j], tid.pid) == Live(jobs, tid.pid) + {tid}
    ensures Live(jobs - {tid}, tid.pid) == Live(jobs, tid.pid) - {tid}
    ensures Holders(jobs[tid := j], tid.pid) ==
      if j.pc.Finishing? then Holders(jobs, tid.pid) - {tid} else Holders(jobs, tid.pid) + {tid}
    ensures Holders(jobs - {tid}, tid.pid) == Holders(jobs, tid.pid) - {tid}
    ensures Uncounted(jobs[tid := j], tid.pid) ==
      if j.pc.Running? || j.pc.Counting? then Uncounted(jobs, tid.pid) + {tid} else Uncounted(jobs, tid.pid) - {tid}
    ensures Uncounted(jobs - {tid}, tid.pid) == Uncounted(jobs, tid.pid) - {tid}
  {
  }

  lemma MoverConserved(cfg: Config, threads: Threads, jobs: Jobs, p: Proc, tid: Tid, e: Effect)
    requires tid in threads && SlotEffect(cfg, threads[tid], Full(cfg, p), e) && (e.spawn.Some? ==> tid !in jobs)
    requires Conserved(cfg, p, tid.pid, threads, jobs)
    ensures var t := threads[tid];
      Conserved(cfg, AfterMove(cfg, p, tid, t, e), tid.pid,
                if e.t.pc.Gone? then threads - {tid} else threads[tid := e.t],
                if e.spawn.Some? then jobs[tid := Job(t.req.actionID, e.spawn.value, Running)] else jobs)
  {
    SpawnersAfter(threads, tid, e.t);
    if e.spawn.Some? {
      JobSetsAfter(jobs, tid, Job(threads[tid].req.actionID, e.spawn.value, Running));
      assert tid !in Live(jobs, tid.pid) && tid !in Holders(jobs, tid.pid) && tid !in Uncounted(jobs, tid.pid);
    }
  }

  lemma CommitConserves(cfg: Config, s: State, tid: Tid, e: Effect)
    requires AsyncInv(cfg, s) && tid in s.threads && SlotEffect(cfg, s.threads[tid], Full(cfg, s.procs[tid.pid]), e)
    ensures AllConserved(cfg, Commit(cfg, s, tid, e).threads, Commit(cfg, s, tid, e).jobs, Commit(cfg, s, tid, e).procs)
  {
    var u := Commit(cfg, s, tid, e);
    forall pid | pid in u.procs && Active(u.procs[pid])
      ensures Conserved(cfg, u.procs[pid], pid, u.threads, u.jobs)
    {
      if pid == tid.pid {
        MoverConserved(cfg, s.threads, s.jobs, s.procs[pid], tid, e);
      } else {
        OtherThread(s.threads, tid, e.t, pid);
        if e.spawn.Some? {
          OtherJob(s.jobs, tid, Job(s.threads[tid].req.actionID, e.spawn.value, Running), pid);
        }
      }
    }
  }

  lemma CommitOwnsJobs(cfg: Config, s: State, tid: Tid, e: Effect)
    requires AsyncInv(cfg, s) && tid in s.threads && SlotEffect(cfg, s.threads[tid], Full(cfg, s.procs[tid.pid]), e)
    ensures JobsOwned(Commit(cfg, s, tid, e).threads, Commit(cfg, s, tid, e).jobs, Commit(cfg, s, tid, e).procs)
  {
    var u := Commit(cfg, s, tid, e);
    forall x | x in u.jobs
      ensures JobOwned(u.threads, u.procs, x)
    {
      if x in s.jobs {
        assert JobOwned(s.threads, s.procs, x);
      } else {
        assert ThreadOwned(s.procs[tid.pid], tid.index, s.threads[tid]);
      }
    }
  }

  lemma ThreadKeepsAsync(cfg: Config, s: State, tid: Tid, c: Choice)
    requires AsyncInv(cfg, s) && StepThread(cfg, s, tid, c).Some?
    ensures AsyncInv(cfg, StepThread(cfg, s, tid, c).value)
  {
    var t := s.threads[tid];
    ThreadKeepsBase(cfg, s, tid, c);
    AdvanceSlots(cfg, t, At(s.files, t.req.actionID), Get(s.remote, t.req.actionID), Full(cfg, s.procs[tid.pid]), c);
    var e := EffectOf(cfg, s, tid, c).value;
    CommitConserves(cfg, s, tid, e);
    CommitOwnsJobs(cfg, s, tid, e);
  }

  function JobsAfter(jobs: Jobs, tid: Tid, e: JobEffect): Jobs
    requires tid in jobs
  {
    if e.pc.None? then jobs - {tid} else jobs[tid := jobs[tid].(pc := e.pc.value)]
  }

  lemma JobSlots(cfg: Config, threads: Threads, jobs: Jobs, p: Proc, tid: Tid, c: Choice, e: JobEffect)
    requires tid in jobs && AdvanceJob(jobs[tid], p, tid, c) == Some(e) && SlotsOk(cfg, p, tid.pid, threads, jobs)
    ensures SlotsOk(cfg, e.p, tid.pid, threads, JobsAfter(jobs, tid, e))
  {
    var hold, after := Holders(jobs, tid.pid), Holders(JobsAfter(jobs, tid, e), tid.pid);
    match jobs[tid].pc
    case Running => assert after == hold;
    case Counting(_) => assert after == hold;
    case Releasing => assert after == hold - {tid} && tid in hold;
    case Finishing => assert after == hold;
  }

  lemma JobWaits(jobs: Jobs, p: Proc, tid: Tid, c: Choice, e: JobEffect)
    requires tid in jobs && AdvanceJob(jobs[tid], p, tid, c) == Some(e) && WaitOk(p, tid.pid, jobs)
    ensures WaitOk(e.p, tid.pid, JobsAfter(jobs, tid, e))
  {
    var live, after := Live(jobs, tid.pid), Live(JobsAfter(jobs, tid, e), tid.pid);
    if jobs[tid].pc.Finishing? {
      assert after == live - {tid} && tid in live;
    } else {
      assert after == live;
    }
  }

  lemma JobCounts(jobs: Jobs, p: Proc, tid: Tid, c: Choice, e: JobEffect)
    requires tid in jobs && AdvanceJob(jobs[tid], p, tid, c) == Some(e) && CountersOk(p, tid.pid, jobs)
    ensures CountersOk(e.p, tid.pid, JobsAfter(jobs, tid, e))
  {
    var open, after := Uncounted(jobs, tid.pid), Uncounted(JobsAfter(jobs, tid, e), tid.pid);
    if jobs[tid].pc.Counting? {
      assert after == open - {tid} && tid in open;
    } else {
      assert after == open;
    }
  }

  /** A goroutine can always give back the slot and the wait group count it holds. */
  lemma JobMoves(cfg: Config, s: State, tid: Tid)
    requires AsyncInv(cfg, s) && tid in s.jobs
    ensures StepJob(s, tid, if s.jobs[tid].pc.Running? then Fail else Go).Some?
  {
    assert JobOwned(s.threads, s.procs, tid);
    assert Conserved(cfg, s.procs[tid.pid], tid.pid, s.threads, s.jobs);
    assert tid in Live(s.jobs, tid.pid);
    assert s.jobs[tid].pc.Releasing? ==> tid in Holders(s.jobs, tid.pid);
  }

  lemma CommitJobConserves(cfg: Config, s: State, tid: Tid, c: Choice, e: JobEffect)
    requires AsyncInv(cfg, s) && tid in s.jobs && tid.pid in s.procs
    requires AdvanceJob(s.jobs[tid], s.procs[tid.pid], tid, c) == Some(e)
    ensures AllConserved(cfg, s.threads, CommitJob(s, tid, e).jobs, CommitJob(s, tid, e).procs)
  {
    var u := CommitJob(s, tid, e);
    assert JobOwned(s.threads, s.procs, tid);
    forall pid | pid in u.procs && Active(u.procs[pid])
      ensures Conserved(cfg, u.procs[pid], pid, s.threads, u.jobs)
    {
      if pid == tid.pid {
        JobSlots(cfg, s.threads, s.jobs, s.procs[pid], tid, c, e);
        JobWaits(s.jobs, s.procs[pid], tid, c, e);
        JobCounts(s.jobs, s.procs[pid], tid, c, e);
      } else {
        OtherJob(s.jobs, tid, if e.pc.None? then s.jobs[tid] else s.jobs[tid].(pc := e.pc.value), pid);
      }
    }
  }

  lemma JobsStayOwned(threads: Threads, jobs: Jobs, procs: Procs, after: Jobs, pid: nat, q: Proc)
    requires JobsOwned(threads, jobs, procs) && after.Keys <= jobs.Keys && pid in procs
    requires q.next == procs[pid].next && q.phase == procs[pid].phase
    ensures JobsOwned(threads, after, procs[pid := q])
  {
    forall x | x in after ensures JobOwned(threads, procs[pid := q], x) {
      assert JobOwned(threads, procs, x);
    }
  }

  lemma JobKeepsAsync(cfg: Config, s: State, tid: Tid, c: Choice)
    requires AsyncInv(cfg, s) && StepJob(s, tid, c).Some?
    ensures AsyncInv(cfg, StepJob(s, tid, c).value)
  {
    hide AllConserved;
    hide JobsOwned;
    hide LocksHeld;
    hide Owned;
    hide PcsOk;
    var e := AdvanceJob(s.jobs[tid], s.procs[tid.pid], tid, c).value;
    JobKeepsBase(cfg, s, tid, c, e);
    CommitJobConserves(cfg, s, tid, c, e);
    JobsStayOwned(s.threads, s.jobs, s.procs, JobsAfter(s.jobs, tid, e), tid.pid, e.p);
  }

  lemma SpawnConserves(cfg: Config, threads: Threads, jobs: Jobs, procs: Procs, pid: nat, r: Request)
    requires AllConserved(cfg, threads, jobs, procs) && pid in procs && Tid(pid, procs[pid].next) !in threads
    ensures AllConserved(cfg, threads[Tid(pid, procs[pid].next) := NewThread(r)], jobs,
        procs[pid := procs[pid].(next := procs[pid].next + 1)])
  {
    var ts := threads[Tid(pid, procs[pid].next) := NewThread(r)];
    forall x ensures Spawners(ts, x) == Spawners(threads, x) {}
    assert forall x :: x in procs && Active(procs[x]) ==> Conserved(cfg, procs[x], x, threads, jobs);
  }

  /** Run's own actions do not touch slots, wait group or counters. */
  lemma QuietProcConserves(cfg: Config, threads: Threads, jobs: Jobs, procs: Procs, pid: nat, q: Proc)
    requires AllConserved(cfg, threads, jobs, procs) && pid in procs && Active(procs[pid])
    requires q == procs[pid].(phase := q.phase, next := q.next, greeted := q.greeted, out := q.out)
    ensures AllConserved(cfg, threads, jobs, procs[pid := q])
    ensures q.phase.Done? ==> AllConserved(cfg, threads, DropJobs(jobs, pid), procs[pid := q])
  {
    forall x | x in procs && x != pid
      ensures Holders(DropJobs(jobs, pid), x) == Holders(jobs, x)
      ensures Uncounted(DropJobs(jobs, pid), x) == Uncounted(jobs, x)
      ensures Live(DropJobs(jobs, pid), x) == Live(jobs, x)
    {
    }
    assert Conserved(cfg, procs[pid], pid, threads, jobs);
    assert forall x :: x in procs && Active(procs[x]) ==> Conserved(cfg, procs[x], x, threads, jobs);
  }

  /** When Run leaves backend.Close, no goroutine of the writer is left. */
  lemma ClosedMeansDrained(cfg: Config, s: State, pid: nat)
    requires AsyncInv(cfg, s) && pid in s.procs && Active(s.procs[pid]) && s.procs[pid].wg == 0
    ensures forall tid :: tid in s.jobs ==> tid.pid != pid
  {
    assert Conserved(cfg, s.procs[pid], pid, s.threads, s.jobs);
    assert Live(s.jobs, pid) == {};
    forall tid | tid in s.jobs ensures tid.pid != pid || tid in Live(s.jobs, pid) {}
  }

  lemma ProcOwnsJobs(cfg: Config, s: State, pid: nat, e: ProcEffect)
    requires AsyncInv(cfg, s) && pid in s.procs && AdvanceProc(s.procs[pid], pid, Idle(s.threads, pid)) == Some(e)
    ensures JobsOwned(CommitProc(s, pid, e).threads, CommitProc(s, pid, e).jobs, CommitProc(s, pid, e).procs)
  {
    hide AllConserved;
    hide LocksHeld;
    hide PcsOk;
    hide Idle;
    var u := CommitProc(s, pid, e);
    if s.procs[pid].phase.Closing? {
      ClosedMeansDrained(cfg, s, pid);
    }
    forall x | x in u.jobs ensures JobOwned(u.threads, u.procs, x) {
      assert JobOwned(s.threads, s.procs, x);
    }
  }

  lemma FreshIndex(threads: Threads, procs: Procs, pid: nat)
    requires Owned(threads, procs) && pid in procs
    ensures Tid(pid, procs[pid].next) !in threads
  {
  }

  lemma ProcConserves(cfg: Config, s: State, pid: nat, e: ProcEffect)
    requires AsyncInv(cfg, s) && pid in s.procs && AdvanceProc(s.procs[pid], pid, Idle(s.threads, pid)) == Some(e)
    ensures AllConserved(cfg, CommitProc(s, pid, e).threads, CommitProc(s, pid, e).jobs, CommitProc(s, pid, e).procs)
  {
    hide AllConserved;
    hide JobsOwned;
    hide Owned;
    hide PcsOk;
    hide Idle;
    if e.spawn.Some? {
      FreshIndex(s.threads, s.procs, pid);
      SpawnConserves(cfg, s.threads, s.jobs, s.procs, pid, s.procs[pid].input[s.procs[pid].next]);
    } else {
      QuietProcConserves(cfg, s.threads, s.jobs, s.procs, pid, e.p);
    }
  }

  lemma ProcKeepsAsync(cfg: Config, s: State, pid: nat)
    requires AsyncInv(cfg, s) && StepProc(s, pid).Some?
    ensures AsyncInv(cfg, StepProc(s, pid).value)
  {
    hide AllConserved;
    hide JobsOwned;
    hide LocksHeld;
    hide Owned;
    hide PcsOk;
    hide ProcShape;
    hide Idle;
    assert ProcOk(s.procs[pid]) by { ProcIsOk(s.threads, s.procs, pid); }
    AdvanceProcShape(s.procs[pid], pid, Idle(s.threads, pid));
    var e := AdvanceProc(s.procs[pid], pid, Idle(s.threads, pid)).value;
    ProcKeepsBase(cfg, s, pid, e);
    ProcOwnsJobs(cfg, s, pid, e);
    ProcConserves(cfg, s, pid, e);
  }

  lemma ProcIsOk(threads: Threads, procs: Procs, pid: nat)
    requires Owned(threads, procs) && pid in procs
    ensures ProcOk(procs[pid])
  {
  }

  lemma KillConserves(cfg: Config, threads: Threads, jobs: Jobs, procs: Procs, pid: nat)
    requires AllConserved(cfg, threads, jobs, procs) && pid in procs
    ensures AllConserved(cfg, DropThreads(threads, pid), DropJobs(jobs, pid), procs[pid := procs[pid].(phase := Dead)])
  {
    forall x | x != pid
      ensures Spawners(DropThreads(threads, pid), x) == Spawners(threads, x)
      ensures Holders(DropJobs(jobs, pid), x) == Holders(jobs, x)
      ensures Uncounted(DropJobs(jobs, pid), x) == Uncounted(jobs, x)
      ensures Live(DropJobs(jobs, pid), x) == Live(jobs, x)
    {
    }
    assert forall x :: x in procs && Active(procs[x]) ==> Conserved(cfg, procs[x], x, threads, jobs);
  }

  lemma KillKeepsAsync(cfg: Config, s: State, pid: nat)
    requires AsyncInv(cfg, s) && StepKill(s, pid).Some?
    ensures AsyncInv(cfg, StepKill(s, pid).value)
  {
    KillKeepsBase(cfg, s, pid);
    var u := StepKill(s, pid).value;
    forall x | x in u.jobs ensures JobOwned(u.threads, u.procs, x) {
      assert JobOwned(s.threads, s.procs, x);
    }
    hide AllConserved;
    KillConserves(cfg, s.threads, s.jobs, s.procs, pid);
  }

  lemma StepKeepsAsync(cfg: Config, s: State, l: Label)
    requires AsyncInv(cfg, s) && Step(cfg, s, l).Some?
    ensures AsyncInv(cfg, Step(cfg, s, l).value)
  {
    hide AsyncInv;
    match l
    case ThreadL(tid, c) => ThreadKeepsAsync(cfg, s, tid, c);
    case JobL(tid, c) => JobKeepsAsync(cfg, s, tid, c);
    case ProcL(pid) => ProcKeepsAsync(cfg, s, pid);
    case KillL(pid) => KillKeepsAsync(cfg, s, pid);
  }

  lemma {:induction false} RunKeepsAsync(cfg: Config, s: State, ls: seq<Label>)
    requires AsyncInv(cfg, s) && Run(cfg, s, ls).Some?
    ensures AsyncInv(cfg, Run(cfg, s, ls).value)
    decreases |ls|
  {
    hide AsyncInv;
    if ls != [] {
      StepKeepsAsync(cfg, s, ls[0]);
      RunKeepsAsync(cfg, Step(cfg, s, ls[0]).value, ls[1..]);
    }
  }

  lemma InitIsAsync(cfg: Config, s: State)
    requires Init(cfg, s)
    ensures AsyncInv(cfg, s)
  {
    forall pid | pid in s.procs ensures Conserved(cfg, s.procs[pid], pid, s.threads, s.jobs) {
      assert Spawners(s.threads, pid) == {} && Holders(s.jobs, pid) == {} && Uncounted(s.jobs, pid) == {};
      assert Live(s.jobs, pid) == {};
    }
  }

  // ---------------------------------------------------------------- admission

  /**
    A handler that calls the asynchronous writer is not held up: it gets a slot if one is free, and is turned away if
    none is.
   */
  lemma CallTakesFreeSlot(cfg: Config, s: State, tid: Tid, c: Choice)
    requires cfg.mode.Async? && tid in s.threads && tid.pid in s.procs && s.threads[tid].pc.PutCalling?
    ensures StepThread(cfg, s, tid, c).Some? <==> c.Go?
    ensures c.Go? ==>
      var u := StepThread(cfg, s, tid, c).value;
      var free := s.procs[tid.pid].tokens < cfg.mode.capacity;
      && u.threads == s.threads[tid := s.threads[tid].(pc := if free then Spawning else Unlocking)]
      && u.procs == s.procs[tid.pid := s.procs[tid.pid].(tokens := s.procs[tid.pid].tokens + if free then 1 else 0)]
      && u.files == s.files && u.remote == s.remote && u.jobs == s.jobs && u.locks == s.locks
      && u.log == s.log + [Issued(tid, s.threads[tid].req.actionID)]
  {
  }

  /**
    In every run a put is turned away exactly when the callers about to start a goroutine and the goroutines that have
    not given their slot back fill the writer's capacity.
   */
  lemma TurnedAwayIffFull(cfg: Config, s0: State, ls: seq<Label>, tid: Tid, c: Choice)
    requires Init(cfg, s0) && Run(cfg, s0, ls).Some? && cfg.mode.Async?
    requires var s := Run(cfg, s0, ls).value;
      tid in s.threads && s.threads[tid].pc.PutCalling? && StepThread(cfg, s, tid, c).Some?
    ensures var s := Run(cfg, s0, ls).value; var u := StepThread(cfg, s, tid, c).value;
      var used := |Spawners(s.threads, tid.pid)| + |Holders(s.jobs, tid.pid)|;
      && tid in u.threads && used <= cfg.mode.capacity
      && (u.threads[tid].pc.Unlocking? <==> used == cfg.mode.capacity)
      && (u.threads[tid].pc.Spawning? <==> used < cfg.mode.capacity)
  {
    InitIsAsync(cfg, s0);
    RunKeepsAsync(cfg, s0, ls);
    var s := Run(cfg, s0, ls).value;
    CallTakesFreeSlot(cfg, s, tid, c);
    hide StepThread;
    assert ThreadOwned(s.procs[tid.pid], tid.index, s.threads[tid]);
    assert Conserved(cfg, s.procs[tid.pid], tid.pid, s.threads, s.jobs);
  }

  /**
    In every reachable state the slots in use are the callers about to start a goroutine plus the goroutines that
    have not given theirs back, never more than the capacity; every started upload is counted as a success, as a
    failure, or still under way; and when the wait group is at zero no goroutine holds a slot any more.
   */
  lemma WriterConserved(cfg: Config, s0: State, ls: seq<Label>, pid: nat)
    requires Init(cfg, s0) && Run(cfg, s0, ls).Some?
    requires pid in Run(cfg, s0, ls).value.procs && Active(Run(cfg, s0, ls).value.procs[pid])
    ensures var s := Run(cfg, s0, ls).value; var p := s.procs[pid];
      && p.tokens == |Spawners(s.threads, pid)| + |Holders(s.jobs, pid)|
      && (if cfg.mode.Async? then p.tokens <= cfg.mode.capacity else p.tokens == 0)
      && p.started == p.succeeded + p.failed + |Uncounted(s.jobs, pid)|
      && (p.wg == 0 ==> p.tokens == |Spawners(s.threads, pid)| && p.started == p.succeeded + p.failed)
  {
    InitIsAsync(cfg, s0);
    RunKeepsAsync(cfg, s0, ls);
    var s := Run(cfg, s0, ls).value;
    assert Conserved(cfg, s.procs[pid], pid, s.threads, s.jobs);
    if s.procs[pid].wg == 0 {
      assert Live(s.jobs, pid) == {};
      assert Holders(s.jobs, pid) <= Live(s.jobs, pid) && Uncounted(s.jobs, pid) <= Live(s.jobs, pid);
    }
  }
}
