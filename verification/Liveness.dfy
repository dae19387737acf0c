/** No deadlock, and no run goes on for ever: every maximal run ends with every request answered. */
module Liveness {
  import opened Basics
  import opened Disk
  import opened Protocol
  import opened Exclusion
  import opened Drain
  import opened Answers
  import opened Sums
  import opened Solo

  // ---------------------------------------------------------------- no deadlock

  /** A GET or PUT without an action ID: localCache panics on it. */
  predicate Panics(r: Request) {
    (r.cmd == CmdGet || r.cmd == CmdPut) && r.actionID == []
  }

  predicate ClosedBefore(input: seq<Request>, i: nat)
    requires i <= |input|
  {
    exists j :: 0 <= j < i && input[j].cmd == CmdClose
  }

  /** Every GET and PUT that is read, that is, before the first close, names an action. */
  predicate Keyed(procs: Procs) {
    forall pid, i :: pid in procs && 0 <= i < |procs[pid].input| && Panics(procs[pid].input[i]) ==>
      ClosedBefore(procs[pid].input, i)
  }

  /** A close is the last request that is read. */
  predicate Unclosed(p: Proc) {
    && p.next <= |p.input|
    && (forall j :: 0 <= j < p.next && p.input[j].cmd == CmdClose ==>
          j == p.next - 1 && !p.phase.Reading? && !p.phase.Booting?)
  }

  predicate AllUnclosed(procs: Procs) {
    forall pid :: pid in procs ==> Unclosed(procs[pid])
  }

  predicate LiveInv(cfg: Config, s: State) {
    AsyncInv(cfg, s) && AllUnclosed(s.procs)
  }

  predicate Final(s: State) {
    s.threads == map[] && s.jobs == map[] && forall pid :: pid in s.procs ==> !Active(s.procs[pid])
  }

  /** An action the handler can take without any system call failing. */
  function NextChoice(cfg: Config, t: Thread): Choice {
    match t.pc
    case ReadingBody => Clock(0)
    case Putting => Clock(0)
    case Copying(n) => if n < |t.entry.bytes| then Upto(|t.entry.bytes|) else Go
    case MetaCopying(n) => if n < |MetaText(cfg, t.entry)| then Upto(|MetaText(cfg, t.entry)|) else Go
    case _ => Go
  }

  lemma CanAdvance(cfg: Config, t: Thread, v: View, rem: Option<Record>, full: bool)
    requires PcOk(cfg, t) && !t.pc.Gone? && (t.pc.Checking? ==> t.req.actionID != [])
    ensures Advance(cfg, t, v, rem, full, NextChoice(cfg, t)).Some?
  {
  }

  lemma KeyedThread(s: State, tid: Tid)
    requires Keyed(s.procs) && Owned(s.threads, s.procs) && AllUnclosed(s.procs)
    requires tid in s.threads && s.threads[tid].req.cmd != CmdOther
    ensures s.threads[tid].req.actionID != []
  {
    var p := s.procs[tid.pid];
    assert ThreadOwned(p, tid.index, s.threads[tid]);
    NothingReadBehindClose(p, tid.index);
  }

  lemma NothingReadBehindClose(p: Proc, i: nat)
    requires Unclosed(p) && i < p.next
    ensures !ClosedBefore(p.input, i)
  {
  }

  /** A handler that holds its lock, or has given it back, is never blocked. */
  lemma UnblockedMoves(cfg: Config, s: State, tid: Tid)
    requires Base(cfg, s) && Keyed(s.procs) && AllUnclosed(s.procs) && tid in s.threads && !s.threads[tid].pc.Locking?
    ensures StepThread(cfg, s, tid, NextChoice(cfg, s.threads[tid])).Some?
  {
    var t := s.threads[tid];
    if t.pc.Checking? {
      KeyedThread(s, tid);
    }
    assert ThreadOwned(s.procs[tid.pid], tid.index, t);
    CanAdvance(cfg, t, At(s.files, t.req.actionID), Get(s.remote, t.req.actionID), Full(cfg, s.procs[tid.pid]));
    AdvanceMoves(cfg, t, At(s.files, t.req.actionID), Get(s.remote, t.req.actionID), Full(cfg, s.procs[tid.pid]),
        NextChoice(cfg, t));
  }

  /** When every handler waits for a lock, no lock is held, so any of them can take its own. */
  lemma WaitersMove(cfg: Config, s: State, tid: Tid)
    requires Base(cfg, s) && tid in s.threads && forall x :: x in s.threads ==> s.threads[x].pc.Locking?
    ensures StepThread(cfg, s, tid, Go).Some?
  {
    assert LockOf(cfg, s.threads[tid]) !in s.locks;
    assert ThreadOwned(s.procs[tid.pid], tid.index, s.threads[tid]);
  }

  lemma RunMoves(cfg: Config, s: State, pid: nat)
    requires AsyncInv(cfg, s) && pid in s.procs && Active(s.procs[pid]) && s.threads == map[] && s.jobs == map[]
    ensures StepProc(s, pid).Some?
  {
    assert Conserved(cfg, s.procs[pid], pid, s.threads, s.jobs) && ProcOk(s.procs[pid]);
    assert Live(s.jobs, pid) == {};
  }

  /** In every reachable state that is not final somebody can move, without a kill. */
  lemma NeverStuck(cfg: Config, s: State) returns (l: Label)
    requires LiveInv(cfg, s) && Keyed(s.procs) && !Final(s)
    ensures Step(cfg, s, l).Some? && !l.KillL?
  {
    if tid :| tid in s.threads && !s.threads[tid].pc.Locking? {
      assert ThreadOwned(s.procs[tid.pid], tid.index, s.threads[tid]);
      UnblockedMoves(cfg, s, tid);
      l := ThreadL(tid, NextChoice(cfg, s.threads[tid]));
    } else if tid :| tid in s.threads {
      WaitersMove(cfg, s, tid);
      l := ThreadL(tid, Go);
    } else if tid :| tid in s.jobs {
      JobMoves(cfg, s, tid);
      l := JobL(tid, if s.jobs[tid].pc.Running? then Fail else Go);
    } else {
      var pid :| pid in s.procs && Active(s.procs[pid]);
      assert s.threads == map[] && s.jobs == map[];
      RunMoves(cfg, s, pid);
      l := ProcL(pid);
    }
  }

  // ---------------------------------------------------------------- no infinite run

  /** Actions left to a handler, not counting the pieces of a file copy. */
  function Rank(pc: Pc): nat {
    match pc
    case Locking => 21
    case Checking => 20
    case ReadingBody => 19
    case Calling => 19
    case Fetching => 18
    case Creating => 17
    case Copying(_) => 16
    case Renaming => 15
    case Cleaning(_) => 14
    case MetaCreating => 13
    case MetaCopying(_) => 12
    case MetaRenaming => 11
    case MetaCleaning => 10
    case Deciding => 9
    case PutCalling => 8
    case Putting => 7
    case Spawning => 7
    case Unlocking => 2
    case Answering => 1
    case Gone => 0
  }

  /** Bytes left to copy. */
  function Left(cfg: Config, t: Thread): nat {
    match t.pc
    case Copying(n) => if n < |t.entry.bytes| then |t.entry.bytes| - n else 0
    case MetaCopying(n) => if n < |MetaText(cfg, t.entry)| then |MetaText(cfg, t.entry)| - n else 0
    case _ => 0
  }

  function JobRank(pc: JobPc): nat {
    match pc
    case Running => 4
    case Counting(_) => 3
    case Releasing => 2
    case Finishing => 1
  }

  /** Actions left to a process, counting 22 for every handler it may still start. */
  function ProcRank(p: Proc): nat {
    var open := if p.next < |p.input| then 22 * (|p.input| - p.next) else 0;
    match p.phase
    case Booting => open + 6
    case Reading => open + 5
    case Draining => open + 4
    case Closing => open + 3
    case Replying => open + 2
    case Exiting => open + 1
    case Done => 0
    case Dead => 0
  }

  function Ranks(threads: Threads): map<Tid, nat> {
    map tid | tid in threads :: Rank(threads[tid].pc)
  }

  function Lefts(cfg: Config, threads: Threads): map<Tid, nat> {
    map tid | tid in threads :: Left(cfg, threads[tid])
  }

  function JobRanks(jobs: Jobs): map<Tid, nat> {
    map tid | tid in jobs :: JobRank(jobs[tid].pc)
  }

  function ProcRanks(procs: Procs): map<nat, nat> {
    map pid | pid in procs :: ProcRank(procs[pid])
  }

  ghost function Actions(s: State): nat {
    Sum(Ranks(s.threads)) + Sum(JobRanks(s.jobs)) + Sum(ProcRanks(s.procs))
  }

  ghost function Pieces(cfg: Config, s: State): nat {
    Sum(Lefts(cfg, s.threads))
  }

  /** The measure is lexicographic: fewer actions, or as many actions and fewer bytes to copy. */
  ghost predicate Smaller(cfg: Config, a: State, b: State) {
    Actions(b) < Actions(a) || (Actions(b) == Actions(a) && Pieces(cfg, b) < Pieces(cfg, a))
  }

  function SpawnRank(e: Effect): nat {
    if e.spawn.Some? then JobRank(Running) else 0
  }

  predicate Lessens(cfg: Config, t: Thread, e: Effect) {
    || Rank(e.t.pc) + SpawnRank(e) < Rank(t.pc)
    || (Rank(e.t.pc) == Rank(t.pc) && e.spawn.None? && Left(cfg, e.t) < Left(cfg, t))
  }

  lemma LookupLessens(cfg: Config, t: Thread, v: View, rem: Option<Record>, c: Choice)
    requires LooksUp(t.pc) && Lookup(cfg, t, v, rem, c).Some?
    ensures Lessens(cfg, t, Lookup(cfg, t, v, rem, c).value)
  {
  }

  lemma WriteLessens(cfg: Config, t: Thread, c: Choice)
    ensures WritesData(t.pc) && WriteData(t, c).Some? ==> Lessens(cfg, t, WriteData(t, c).value)
    ensures WritesMeta(t.pc) && WriteMeta(cfg, t, c).Some? ==> Lessens(cfg, t, WriteMeta(cfg, t, c).value)
  {
  }

  lemma FinishLessens(cfg: Config, t: Thread, full: bool, c: Choice)
    requires Finish(cfg, t, full, c).Some?
    ensures Lessens(cfg, t, Finish(cfg, t, full, c).value)
  {
  }

  lemma AdvanceLessens(cfg: Config, t: Thread, v: View, rem: Option<Record>, full: bool, c: Choice)
    requires Advance(cfg, t, v, rem, full, c).Some?
    ensures Lessens(cfg, t, Advance(cfg, t, v, rem, full, c).value)
  {
    hide Lessens;
    if LooksUp(t.pc) {
      LookupLessens(cfg, t, v, rem, c);
    } else if WritesData(t.pc) || WritesMeta(t.pc) {
      WriteLessens(cfg, t, c);
    } else {
      FinishLessens(cfg, t, full, c);
    }
  }

  lemma RanksAfter(cfg: Config, threads: Threads, tid: Tid, u: Thread)
    ensures Sum(Ranks(threads[tid := u])) == Rank(u.pc) + Sum(Ranks(threads - {tid}))
    ensures Sum(Lefts(cfg, threads[tid := u])) == Left(cfg, u) + Sum(Lefts(cfg, threads - {tid}))
    ensures tid in threads ==> Sum(Ranks(threads)) == Rank(threads[tid].pc) + Sum(Ranks(threads - {tid}))
    ensures tid in threads ==> Sum(Lefts(cfg, threads)) == Left(cfg, threads[tid]) + Sum(Lefts(cfg, threads - {tid}))
  {
    assert Ranks(threads[tid := u]) == Ranks(threads)[tid := Rank(u.pc)];
    assert Ranks(threads - {tid}) == Ranks(threads) - {tid};
    assert Lefts(cfg, threads[tid := u]) == Lefts(cfg, threads)[tid := Left(cfg, u)];
    assert Lefts(cfg, threads - {tid}) == Lefts(cfg, threads) - {tid};
    SumUpdate(Ranks(threads), tid, Rank(u.pc));
    SumUpdate(Lefts(cfg, threads), tid, Left(cfg, u));
    if tid in threads {
      SumWithout(Ranks(threads), tid);
      SumWithout(Lefts(cfg, threads), tid);
    }
  }

  lemma JobRanksAfter(jobs: Jobs, tid: Tid, j: Job)
    ensures Sum(JobRanks(jobs[tid := j])) == JobRank(j.pc) + Sum(JobRanks(jobs - {tid}))
    ensures tid in jobs ==> Sum(JobRanks(jobs)) == JobRank(jobs[tid].pc) + Sum(JobRanks(jobs - {tid}))
    ensures tid !in jobs ==> Sum(JobRanks(jobs)) == Sum(JobRanks(jobs - {tid}))
  {
    assert JobRanks(jobs[tid := j]) == JobRanks(jobs)[tid := JobRank(j.pc)];
    assert JobRanks(jobs - {tid}) == JobRanks(jobs) - {tid};
    SumUpdate(JobRanks(jobs), tid, JobRank(j.pc));
    if tid in jobs {
      SumWithout(JobRanks(jobs), tid);
    } else {
      assert jobs - {tid} == jobs;
    }
  }

  lemma ProcRanksAfter(procs: Procs, pid: nat, q: Proc)
    requires pid in procs
    ensures Sum(ProcRanks(procs[pid := q])) + ProcRank(procs[pid]) == ProcRank(q) + Sum(ProcRanks(procs))
  {
    assert ProcRanks(procs[pid := q]) == ProcRanks(procs)[pid := ProcRank(q)];
    SumUpdate(ProcRanks(procs), pid, ProcRank(q));
    SumWithout(ProcRanks(procs), pid);
  }

  lemma CommitShrinks(cfg: Config, s: State, tid: Tid, e: Effect)
    requires tid in s.threads && tid.pid in s.procs && Lessens(cfg, s.threads[tid], e)
    requires (e.spawn.Some? ==> tid !in s.jobs)
    ensures Smaller(cfg, s, Commit(cfg, s, tid, e))
  {
    hide Rank;
    hide Left;
    hide Sum;
    hide Ranks;
    hide Lefts;
    hide JobRanks;
    hide ProcRanks;
    var t := s.threads[tid];
    RanksAfter(cfg, s.threads, tid, e.t);
    if e.spawn.Some? {
      JobRanksAfter(s.jobs, tid, Job(t.req.actionID, e.spawn.value, Running));
    }
    var q := AfterMove(cfg, s.procs[tid.pid], tid, t, e);
    ProcRanksAfter(s.procs, tid.pid, q);
    assert ProcRank(q) == ProcRank(s.procs[tid.pid]);
    assert Rank(Gone) == 0 by { RankOfGone(); }
  }

  lemma RankOfGone()
    ensures Rank(Gone) == 0
  {
  }

  lemma JobShrinks(cfg: Config, s: State, tid: Tid, c: Choice)
    requires StepJob(s, tid, c).Some?
    ensures Smaller(cfg, s, StepJob(s, tid, c).value)
  {
    hide Sum;
    hide Ranks;
    hide Lefts;
    hide JobRanks;
    hide ProcRanks;
    var e := AdvanceJob(s.jobs[tid], s.procs[tid.pid], tid, c).value;
    JobRanksAfter(s.jobs, tid, if e.pc.Some? then s.jobs[tid].(pc := e.pc.value) else s.jobs[tid]);
    ProcRanksAfter(s.procs, tid.pid, e.p);
  }

  lemma ProcRankDrops(p: Proc, pid: nat, idle: bool)
    requires ProcOk(p) && AdvanceProc(p, pid, idle).Some?
    ensures var e := AdvanceProc(p, pid, idle).value;
      ProcRank(e.p) + (if e.spawn.Some? then Rank(e.spawn.value.pc) else 0) < ProcRank(p)
    ensures var e := AdvanceProc(p, pid, idle).value; e.spawn.Some? ==> !e.p.phase.Done?
  {
  }

  lemma CommitProcShrinks(cfg: Config, s: State, pid: nat, e: ProcEffect)
    requires pid in s.procs && Tid(pid, s.procs[pid].next) !in s.threads
    requires ProcRank(e.p) + (if e.spawn.Some? then Rank(e.spawn.value.pc) else 0) < ProcRank(s.procs[pid])
    ensures Smaller(cfg, s, CommitProc(s, pid, e))
  {
    hide Sum;
    hide Ranks;
    hide Lefts;
    hide JobRanks;
    hide ProcRanks;
    hide ProcRank;
    hide Rank;
    ProcRanksAfter(s.procs, pid, e.p);
    DroppedJobs(s.jobs, pid);
    if e.spawn.Some? {
      var tid := Tid(pid, s.procs[pid].next);
      RanksAfter(cfg, s.threads, tid, e.spawn.value);
      assert s.threads - {tid} == s.threads;
    }
  }

  lemma ProcShrinks(cfg: Config, s: State, pid: nat)
    requires Base(cfg, s) && StepProc(s, pid).Some?
    ensures Smaller(cfg, s, StepProc(s, pid).value)
  {
    assert ProcOk(s.procs[pid]);
    FreshIndex(s.threads, s.procs, pid);
    hide Base;
    hide Idle;
    hide Smaller;
    ProcRankDrops(s.procs[pid], pid, Idle(s.threads, pid));
    CommitProcShrinks(cfg, s, pid, AdvanceProc(s.procs[pid], pid, Idle(s.threads, pid)).value);
  }

  lemma DroppedJobs(jobs: Jobs, pid: nat)
    ensures Sum(JobRanks(DropJobs(jobs, pid))) <= Sum(JobRanks(jobs))
  {
    SumSubmap(JobRanks(jobs), JobRanks(DropJobs(jobs, pid)));
  }

  lemma KillShrinks(cfg: Config, s: State, pid: nat)
    requires StepKill(s, pid).Some?
    ensures Smaller(cfg, s, StepKill(s, pid).value)
  {
    DroppedJobs(s.jobs, pid);
    SumSubmap(Ranks(s.threads), Ranks(DropThreads(s.threads, pid)));
    ProcRanksAfter(s.procs, pid, s.procs[pid].(phase := Dead));
    hide Sum;
    hide Ranks;
    hide JobRanks;
    hide ProcRanks;
    hide DropThreads;
    hide DropJobs;
  }

  /** Every action whatsoever - progress, failure, kill - makes the measure smaller. */
  lemma StepShrinks(cfg: Config, s: State, l: Label)
    requires AsyncInv(cfg, s) && Step(cfg, s, l).Some?
    ensures Smaller(cfg, s, Step(cfg, s, l).value)
  {
    hide Smaller;
    match l
    case ThreadL(tid, c) => ThreadShrinks(cfg, s, tid, c);
    case JobL(tid, c) => JobShrinks(cfg, s, tid, c);
    case ProcL(pid) => ProcShrinks(cfg, s, pid);
    case KillL(pid) => KillShrinks(cfg, s, pid);
  }

  lemma ThreadShrinks(cfg: Config, s: State, tid: Tid, c: Choice)
    requires AsyncInv(cfg, s) && StepThread(cfg, s, tid, c).Some?
    ensures Smaller(cfg, s, StepThread(cfg, s, tid, c).value)
  {
    hide Smaller;
    hide Lessens;
    var t := s.threads[tid];
    var id := t.req.actionID;
    AdvanceLessens(cfg, t, At(s.files, id), Get(s.remote, id), Full(cfg, s.procs[tid.pid]), c);
    AdvanceSlots(cfg, t, At(s.files, id), Get(s.remote, id), Full(cfg, s.procs[tid.pid]), c);
    assert tid in s.jobs ==> JobOwned(s.threads, s.procs, tid);
    hide AsyncInv;
    CommitShrinks(cfg, s, tid, EffectOf(cfg, s, tid, c).value);
  }

  ghost predicate IsStep(cfg: Config, a: State, b: State) {
    exists l :: Step(cfg, a, l) == Some(b)
  }

  ghost predicate Endless(cfg: Config, f: nat -> State) {
    forall i: nat :: IsStep(cfg, f(i), f(i + 1))
  }

  lemma {:induction false} EndlessImpossible(cfg: Config, f: nat -> State, i: nat)
    requires AsyncInv(cfg, f(i))
    ensures !Endless(cfg, f)
    decreases Actions(f(i)), Pieces(cfg, f(i))
  {
    if IsStep(cfg, f(i), f(i + 1)) {
      var l :| Step(cfg, f(i), l) == Some(f(i + 1));
      StepKeepsAsync(cfg, f(i), l);
      StepShrinks(cfg, f(i), l);
      EndlessImpossible(cfg, f, i + 1);
    }
  }

  /** There is no infinite run, under any schedule and any failures. */
  lemma NoEndlessRun(cfg: Config, f: nat -> State)
    requires Init(cfg, f(0))
    ensures !Endless(cfg, f)
  {
    InitIsAsync(cfg, f(0));
    EndlessImpossible(cfg, f, 0);
  }

  // ---------------------------------------------------------------- what is read

  lemma ProcStaysUnclosed(p: Proc, pid: nat, idle: bool)
    requires Unclosed(p) && AdvanceProc(p, pid, idle).Some?
    ensures Unclosed(AdvanceProc(p, pid, idle).value.p)
  {
  }

  lemma SetUnclosed(procs: Procs, pid: nat, q: Proc)
    requires AllUnclosed(procs) && Unclosed(q)
    ensures AllUnclosed(procs[pid := q])
  {
    hide Unclosed;
  }

  lemma ThreadKeepsUnclosed(cfg: Config, s: State, tid: Tid, c: Choice)
    requires AllUnclosed(s.procs) && StepThread(cfg, s, tid, c).Some?
    ensures AllUnclosed(StepThread(cfg, s, tid, c).value.procs)
  {
    var e := EffectOf(cfg, s, tid, c).value;
    assert Unclosed(s.procs[tid.pid]);
    SetUnclosed(s.procs, tid.pid, AfterMove(cfg, s.procs[tid.pid], tid, s.threads[tid], e));
    hide Advance;
    hide Relock;
  }

  lemma StepKeepsUnclosed(cfg: Config, s: State, l: Label)
    requires AllUnclosed(s.procs) && Step(cfg, s, l).Some?
    ensures AllUnclosed(Step(cfg, s, l).value.procs)
  {
    hide StepThread;
    match l
    case ThreadL(tid, c) => ThreadKeepsUnclosed(cfg, s, tid, c);
    case JobL(tid, c) =>
      var p := s.procs[tid.pid];
      var q := AdvanceJob(s.jobs[tid], p, tid, c).value.p;
      assert Unclosed(p) && q.next == p.next && q.input == p.input && q.phase == p.phase;
      hide AdvanceJob;
      SetUnclosed(s.procs, tid.pid, q);
    case ProcL(pid) =>
      ProcStaysUnclosed(s.procs[pid], pid, Idle(s.threads, pid));
      hide AdvanceProc;
    case KillL(pid) =>
      assert Unclosed(s.procs[pid]);
  }

  lemma {:induction false} RunKeepsLive(cfg: Config, s: State, ls: seq<Label>)
    requires LiveInv(cfg, s) && Run(cfg, s, ls).Some?
    ensures LiveInv(cfg, Run(cfg, s, ls).value)
    decreases |ls|
  {
    hide AsyncInv;
    hide AllUnclosed;
    hide Step;
    if ls != [] {
      StepKeepsAsync(cfg, s, ls[0]);
      StepKeepsUnclosed(cfg, s, ls[0]);
      RunKeepsLive(cfg, Step(cfg, s, ls[0]).value, ls[1..]);
    }
  }

  lemma InitIsLive(cfg: Config, s: State)
    requires Init(cfg, s)
    ensures LiveInv(cfg, s)
  {
    InitIsAsync(cfg, s);
    forall pid | pid in s.procs ensures Unclosed(s.procs[pid]) {
      assert FreshProc(s.procs[pid]);
    }
  }

  // ---------------------------------------------------------------- maximal runs

  /** Nothing but a kill can go on. */
  ghost predicate OnlyKills(cfg: Config, s: State) {
    forall l :: Step(cfg, s, l).Some? ==> l.KillL?
  }

  /** The process has finished, and answered what it read: its whole input, or up to a close. */
  predicate AnsweredAll(p: Proc) {
    && p.phase.Done? && p.next <= |p.input|
    && multiset(ResponseIds(p.out)) == multiset(RequestIds(p.input[..p.next]))
    && (p.next == |p.input| || ClosedLast(p))
  }

  /**
    A run that nothing but a kill can continue has finished: every process that was not killed has answered each
    request it read exactly once, and read its input to the end or to a close.
   */
  lemma MaximalRunsAnswerAll(cfg: Config, s0: State, ls: seq<Label>, pid: nat)
    requires Init(cfg, s0) && Keyed(s0.procs) && Run(cfg, s0, ls).Some? && OnlyKills(cfg, Run(cfg, s0, ls).value)
    requires pid in Run(cfg, s0, ls).value.procs && !Run(cfg, s0, ls).value.procs[pid].phase.Dead?
    ensures AnsweredAll(Run(cfg, s0, ls).value.procs[pid])
  {
    var s := Run(cfg, s0, ls).value;
    InitIsLive(cfg, s0);
    RunKeepsLive(cfg, s0, ls);
    RunKeepsInputs(cfg, s0, ls);
    KeyedLater(s0.procs, s.procs);
    hide LiveInv;
    hide Keyed;
    hide Step;
    hide Init;
    if !Final(s) {
      var l := NeverStuck(cfg, s);
    }
    OneResponsePerRequest(cfg, s0, ls, pid);
  }

  lemma KeyedLater(a: Procs, b: Procs)
    requires Keyed(a) && SameInputs(a, b)
    ensures Keyed(b)
  {
  }

  // ---------------------------------------------------------------- requests without an action ID

  /** A handler at the panic: it holds its lock and will never move. */
  predicate Halted(s: State, tid: Tid) {
    tid in s.threads && s.threads[tid].pc.Checking? && s.threads[tid].req.actionID == []
  }

  lemma HaltedCannotMove(cfg: Config, t: Thread, v: View, rem: Option<Record>, full: bool, c: Choice)
    requires t.pc.Checking? && t.req.actionID == []
    ensures Advance(cfg, t, v, rem, full, c).None?
  {
  }

  lemma StepKeepsHalted(cfg: Config, s: State, tid: Tid, l: Label)
    requires Base(cfg, s) && Halted(s, tid) && Step(cfg, s, l).Some? && !l.KillL?
    ensures Halted(Step(cfg, s, l).value, tid)
  {
    var t := s.threads[tid];
    assert ThreadOwned(s.procs[tid.pid], tid.index, t);
    hide Base;
    if l.ThreadL? && l.tid == tid {
      HaltedCannotMove(cfg, t, At(s.files, []), Get(s.remote, []), Full(cfg, s.procs[tid.pid]), l.c);
    }
    hide Advance;
    hide AdvanceJob;
    hide AdvanceProc;
  }

  /** Any state can be run on, without kills, until nothing but a kill is left. */
  lemma {:induction false} RunOn(cfg: Config, s0: State, s: State, tid: Tid) returns (u: State)
    requires From(cfg, s0, s) && AsyncInv(cfg, s) && Halted(s, tid)
    ensures From(cfg, s0, u) && AsyncInv(cfg, u) && Halted(u, tid) && OnlyKills(cfg, u)
    decreases Actions(s), Pieces(cfg, s)
  {
    if l :| Step(cfg, s, l).Some? && !l.KillL? {
      var next := Step(cfg, s, l).value;
      StepKeepsAsync(cfg, s, l);
      StepShrinks(cfg, s, l);
      StepKeepsHalted(cfg, s, tid, l);
      FromStep(cfg, s0, s, l);
      hide AsyncInv;
      hide Step;
      hide From;
      u := RunOn(cfg, s0, next, tid);
    } else {
      u := s;
    }
  }

  /** A process reads its first `n` requests, with nobody else doing anything. */
  lemma {:induction false} ReadUpTo(cfg: Config, s0: State, pid: nat, n: nat) returns (s: State)
    requires Init(cfg, s0) && pid in s0.procs && n <= |s0.procs[pid].input|
    requires forall j :: 0 <= j < n ==> s0.procs[pid].input[j].cmd != CmdClose
    ensures From(cfg, s0, s) && s.locks == map[] && pid in s.procs
    ensures s.procs[pid] == s0.procs[pid].(next := n, phase := Reading, greeted := true)
    ensures n > 0 ==>
      Tid(pid, n - 1) in s.threads && s.threads[Tid(pid, n - 1)] == NewThread(s0.procs[pid].input[n - 1])
  {
    hide From;
    if n == 0 {
      assert FreshProc(s0.procs[pid]);
      FromSelf(cfg, s0);
      FromStep(cfg, s0, s0, ProcL(pid));
      s := StepProc(s0, pid).value;
    } else {
      var r := ReadUpTo(cfg, s0, pid, n - 1);
      FromStep(cfg, s0, r, ProcL(pid));
      s := StepProc(r, pid).value;
    }
  }

  /** It takes the lock of a request without an action ID, and panics. */
  lemma ReachPanic(cfg: Config, s0: State, pid: nat, i: nat) returns (s: State)
    requires Init(cfg, s0) && pid in s0.procs && i < |s0.procs[pid].input|
    requires Panics(s0.procs[pid].input[i]) && !ClosedBefore(s0.procs[pid].input, i)
    ensures From(cfg, s0, s) && Halted(s, Tid(pid, i))
  {
    var r := ReadUpTo(cfg, s0, pid, i + 1);
    var tid := Tid(pid, i);
    hide From;
    hide Init;
    s := Commit(cfg, r, tid, Move(r.threads[tid], Checking));
    assert Step(cfg, r, ThreadL(tid, Go)) == Some(s);
    FromStep(cfg, s0, r, ThreadL(tid, Go));
  }

  lemma FromIsLive(cfg: Config, s0: State, s: State)
    requires Init(cfg, s0) && From(cfg, s0, s)
    ensures LiveInv(cfg, s)
  {
    var ls :| Run(cfg, s0, ls) == Some(s);
    InitIsLive(cfg, s0);
    RunKeepsLive(cfg, s0, ls);
  }

  /** Then some maximal run, in which nobody is killed, never answers it. */
  lemma PanicNeverAnswers(cfg: Config, s0: State, pid: nat, i: nat) returns (u: State)
    requires Init(cfg, s0) && pid in s0.procs && i < |s0.procs[pid].input|
    requires Panics(s0.procs[pid].input[i]) && !ClosedBefore(s0.procs[pid].input, i)
    ensures From(cfg, s0, u) && OnlyKills(cfg, u) && Halted(u, Tid(pid, i))
    ensures pid in u.procs && !u.procs[pid].phase.Dead? && !u.procs[pid].phase.Done?
  {
    var s := ReachPanic(cfg, s0, pid, i);
    FromIsLive(cfg, s0, s);
    u := RunOn(cfg, s0, s, Tid(pid, i));
    assert ThreadOwned(u.procs[pid], i, u.threads[Tid(pid, i)]);
    hide From;
    hide Init;
    hide OnlyKills;
  }

  ghost predicate AlwaysAnswers(cfg: Config, s0: State) {
    forall s, pid :: From(cfg, s0, s) && OnlyKills(cfg, s) && pid in s.procs && !s.procs[pid].phase.Dead? ==>
      AnsweredAll(s.procs[pid])
  }

  /**
    Every maximal run answers every request of every process that is not killed if and only if no process has a GET or
    PUT without an action ID before its first close.
   */
  lemma AnswersIffKeyed(cfg: Config, s0: State)
    requires Init(cfg, s0)
    ensures AlwaysAnswers(cfg, s0) <==> Keyed(s0.procs)
  {
    if Keyed(s0.procs) {
      forall s, pid | From(cfg, s0, s) && OnlyKills(cfg, s) && pid in s.procs && !s.procs[pid].phase.Dead?
        ensures AnsweredAll(s.procs[pid])
      {
        var ls :| Run(cfg, s0, ls) == Some(s);
        MaximalRunsAnswerAll(cfg, s0, ls, pid);
      }
    } else {
      var pid, i :| pid in s0.procs && 0 <= i < |s0.procs[pid].input| && Panics(s0.procs[pid].input[i])
        && !ClosedBefore(s0.procs[pid].input, i);
      var u := PanicNeverAnswers(cfg, s0, pid, i);
      assert !AnsweredAll(u.procs[pid]);
    }
  }

  const BAD_GET := Request(1, CmdGet, [], [], None, 0)

  function OneBadGet(): State {
    State(map[], map[], map[], map[], map[], map[0 := Fresh(BAD_GET)], [])
  }

  /** The process has read all there is, and its one handler is at the panic. */
  predicate Wedged(s: State) {
    && s.threads.Keys == {Tid(0, 0)} && Halted(s, Tid(0, 0)) && s.jobs == map[]
    && s.procs.Keys == {0} && s.procs[0].phase.Exiting?
  }

  lemma WedgedOnlyDies(cfg: Config, s: State)
    requires Wedged(s)
    ensures OnlyKills(cfg, s)
  {
    forall l | Step(cfg, s, l).Some? ensures l.KillL? {
      if l.ThreadL? && l.tid == Tid(0, 0) {
        HaltedCannotMove(cfg, s.threads[l.tid], At(s.files, []), Get(s.remote, []), Full(cfg, s.procs[0]), l.c);
      }
      hide Advance;
    }
  }

  lemma ReadBadGet(cfg: Config) returns (a: State, b: State, c: State)
    ensures var l := ProcL(0);
      Step(cfg, OneBadGet(), l) == Some(a) && Step(cfg, a, l) == Some(b) && Step(cfg, b, l) == Some(c)
    ensures c.threads == map[Tid(0, 0) := NewThread(BAD_GET)] && c.locks == map[] && c.jobs == map[]
    ensures c.procs.Keys == {0} && c.procs[0].phase.Exiting? && c.procs[0].out == []
  {
    var s0 := OneBadGet();
    a := StepProc(s0, 0).value;
    b := StepProc(a, 0).value;
    c := StepProc(b, 0).value;
  }

  lemma TakeBadLock(cfg: Config, s: State) returns (u: State)
    requires s.threads == map[Tid(0, 0) := NewThread(BAD_GET)] && s.locks == map[] && s.jobs == map[]
    requires s.procs.Keys == {0} && s.procs[0].phase.Exiting? && s.procs[0].out == []
    ensures Step(cfg, s, ThreadL(Tid(0, 0), Go)) == Some(u) && Wedged(u) && u.procs[0].out == []
  {
    u := Commit(cfg, s, Tid(0, 0), Move(NewThread(BAD_GET), Checking));
  }

  lemma BadGetIsInit(cfg: Config)
    ensures Init(cfg, OneBadGet())
  {
    forall id ensures Whole(cfg, At(OneBadGet().files, id)) {}
  }

  /**
    The shortest such run: a process with one GET without an action ID ends waiting for a handler that never answers.
   */
  lemma PanickingGet(cfg: Config)
    ensures Init(cfg, OneBadGet())
    ensures var r := Run(cfg, OneBadGet(), [ProcL(0), ProcL(0), ProcL(0), ThreadL(Tid(0, 0), Go)]);
      r.Some? && Wedged(r.value) && r.value.procs[0].out == [] && OnlyKills(cfg, r.value)
  {
    BadGetIsInit(cfg);
    var a, b, c := ReadBadGet(cfg);
    var d := TakeBadLock(cfg, c);
    WedgedOnlyDies(cfg, d);
    FourSteps(cfg, OneBadGet(), [ProcL(0), ProcL(0), ProcL(0), ThreadL(Tid(0, 0), Go)], a, b, c, d);
    hide *;
  }

  lemma FourSteps(cfg: Config, s: State, ls: seq<Label>, a: State, b: State, c: State, d: State)
    requires |ls| == 4 && Step(cfg, s, ls[0]) == Some(a) && Step(cfg, a, ls[1]) == Some(b)
    requires Step(cfg, b, ls[2]) == Some(c) && Step(cfg, c, ls[3]) == Some(d)
    ensures Run(cfg, s, ls) == Some(d)
  {
    hide Step;
    assert ls[1..][1..] == ls[2..] && ls[2..][1..] == ls[3..] && ls[3..][1..] == [];
    assert Run(cfg, d, []) == Some(d);
    assert Run(cfg, c, ls[3..]) == Some(d);
    assert Run(cfg, b, ls[2..]) == Some(d);
    assert Run(cfg, a, ls[1..]) == Some(d);
  }
}
