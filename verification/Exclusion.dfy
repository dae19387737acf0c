/** Mutual exclusion per action ID, and which goroutines exist, for every interleaving of every number of processes. */
module Exclusion {
  import opened Basics
  import opened Disk
  import opened Protocol

  type Threads = map<Tid, Thread>
  type Locks = map<string, Tid>
  type Procs = map<nat, Proc>

  // ---------------------------------------------------------------- locks and ownership

  function LockOf(cfg: Config, t: Thread): string {
    cfg.lockName(t.req.actionID)
  }

  /** A handler is inside the callback exactly while the lock table names it. */
  predicate LocksHeld(cfg: Config, threads: Threads, locks: Locks) {
    && (forall tid :: tid in threads && InSection(threads[tid].pc) ==>
          LockOf(cfg, threads[tid]) in locks && locks[LockOf(cfg, threads[tid])] == tid)
    && (forall n :: n in locks ==>
          locks[n] in threads && InSection(threads[locks[n]].pc) && LockOf(cfg, threads[locks[n]]) == n)
  }

  /** A handler works on the request its index names, for a process that still waits for it. */
  predicate ThreadOwned(p: Proc, index: nat, t: Thread) {
    && index < p.next <= |p.input|
    && t.req == p.input[index] && !t.req.cmd.CmdClose? && !t.pc.Gone?
    && (p.phase.Reading? || p.phase.Draining? || p.phase.Exiting?)
  }

  predicate AllFramed(input: seq<Request>) {
    forall i :: 0 <= i < |input| ==> Framed(input[i])
  }

  predicate ProcOk(p: Proc) {
    && p.next <= |p.input|
    && (p.phase.Draining? || p.phase.Closing? || p.phase.Replying? ==> 0 < p.next)
    && AllFramed(p.input)
  }

  predicate Owned(threads: Threads, procs: Procs) {
    && (forall pid :: pid in procs ==> ProcOk(procs[pid]))
    && (forall tid :: tid in threads ==> tid.pid in procs && ThreadOwned(procs[tid.pid], tid.index, threads[tid]))
  }

  /** Which requests and which configurations reach which program points. */
  predicate PcOk(cfg: Config, t: Thread) {
    && (t.pc.ReadingBody? || AtRemote(t.pc) || t.result.Stored? ==> t.req.cmd == CmdPut)
    && (t.pc.Calling? || t.pc.Fetching? ==> t.req.cmd != CmdPut)
    && (AtRemote(t.pc) ==> t.result.Stored?)
    && (t.pc.PutCalling? || t.pc.Putting? || t.pc.Spawning? ==> CanUpload(cfg, t.entry))
    && (t.pc.Putting? ==> cfg.mode.Sync?)
    && (t.pc.Spawning? ==> cfg.mode.Async?)
    && (t.pc.PutCalling? ==> !cfg.mode.ReadOnly?)
    && (t.pc.MetaCleaning? ==> cfg.metaMayFail)
    && (t.req.cmd == CmdOther ==> t.pc.Answering? || t.pc.Gone?)
    && (t.pc.Copying? ==> t.pc.n <= |t.entry.bytes|)
    && (t.pc.MetaCopying? ==> t.pc.n <= |MetaText(cfg, t.entry)|)
  }

  predicate PcsOk(cfg: Config, threads: Threads) {
    forall tid :: tid in threads ==> PcOk(cfg, threads[tid])
  }

  predicate Base(cfg: Config, s: State) {
    LocksHeld(cfg, s.threads, s.locks) && Owned(s.threads, s.procs) && PcsOk(cfg, s.threads)
  }

  /** No two handlers of any processes are inside the callback for one action ID. */
  lemma MutualExclusion(cfg: Config, s: State, a: Tid, b: Tid)
    requires Base(cfg, s)
    requires a in s.threads && b in s.threads && InSection(s.threads[a].pc) && InSection(s.threads[b].pc)
    requires LockOf(cfg, s.threads[a]) == LockOf(cfg, s.threads[b])
    ensures a == b
  {
  }

  /** What an action leaves of the handler that makes it. */
  predicate Moves(cfg: Config, t: Thread, e: Effect) {
    && e.t.req == t.req
    && (InSection(t.pc) || e.op.Nop?)
    && (e.t.pc.Gone? <==> t.pc.Answering?)
    && PcOk(cfg, e.t)
  }

  lemma LookupMoves(cfg: Config, t: Thread, v: View, rem: Option<Record>, c: Choice)
    requires PcOk(cfg, t) && Lookup(cfg, t, v, rem, c).Some?
    ensures Moves(cfg, t, Lookup(cfg, t, v, rem, c).value)
  {
  }

  lemma WriteDataMoves(cfg: Config, t: Thread, c: Choice)
    requires PcOk(cfg, t) && WriteData(t, c).Some?
    ensures Moves(cfg, t, WriteData(t, c).value)
  {
  }

  lemma WriteMetaMoves(cfg: Config, t: Thread, c: Choice)
    requires PcOk(cfg, t) && WriteMeta(cfg, t, c).Some?
    ensures Moves(cfg, t, WriteMeta(cfg, t, c).value)
  {
  }

  lemma FinishMoves(cfg: Config, t: Thread, full: bool, c: Choice)
    requires PcOk(cfg, t) && Finish(cfg, t, full, c).Some?
    ensures Moves(cfg, t, Finish(cfg, t, full, c).value)
  {
  }

  lemma AdvanceMoves(cfg: Config, t: Thread, v: View, rem: Option<Record>, full: bool, c: Choice)
    requires PcOk(cfg, t) && Advance(cfg, t, v, rem, full, c).Some?
    ensures Moves(cfg, t, Advance(cfg, t, v, rem, full, c).value)
  {
    if LooksUp(t.pc) {
      LookupMoves(cfg, t, v, rem, c);
    } else if WritesData(t.pc) {
      WriteDataMoves(cfg, t, c);
    } else if WritesMeta(t.pc) {
      WriteMetaMoves(cfg, t, c);
    } else {
      FinishMoves(cfg, t, full, c);
    }
  }

  lemma RelockHolds(cfg: Config, threads: Threads, locks: Locks, tid: Tid, u: Thread)
    requires LocksHeld(cfg, threads, locks) && tid in threads && u.req == threads[tid].req
    requires !InSection(threads[tid].pc) && InSection(u.pc) ==> LockOf(cfg, u) !in locks
    ensures LocksHeld(cfg, threads[tid := u], Relock(cfg, locks, tid, threads[tid], u))
    ensures u.pc.Gone? ==> LocksHeld(cfg, threads - {tid}, Relock(cfg, locks, tid, threads[tid], u))
  {
  }

  lemma SetProcOwned(threads: Threads, procs: Procs, pid: nat, q: Proc)
    requires Owned(threads, procs) && ProcOk(q)
    requires forall tid :: tid in threads && tid.pid == pid ==> ThreadOwned(q, tid.index, threads[tid])
    ensures Owned(threads, procs[pid := q])
  {
  }

  lemma CommitKeepsOwned(cfg: Config, s: State, tid: Tid, e: Effect)
    requires Base(cfg, s) && tid in s.threads && Moves(cfg, s.threads[tid], e)
    ensures Owned(Commit(cfg, s, tid, e).threads, Commit(cfg, s, tid, e).procs)
  {
    var q := AfterMove(cfg, s.procs[tid.pid], tid, s.threads[tid], e);
    SetProcOwned(s.threads, s.procs, tid.pid, q);
  }

  lemma CommitKeepsBase(cfg: Config, s: State, tid: Tid, e: Effect)
    requires Base(cfg, s) && tid in s.threads && Moves(cfg, s.threads[tid], e)
    requires !InSection(s.threads[tid].pc) && InSection(e.t.pc) ==> LockOf(cfg, e.t) !in s.locks
    ensures Base(cfg, Commit(cfg, s, tid, e))
  {
    RelockHolds(cfg, s.threads, s.locks, tid, e.t);
    CommitKeepsOwned(cfg, s, tid, e);
  }

  lemma ThreadKeepsBase(cfg: Config, s: State, tid: Tid, c: Choice)
    requires Base(cfg, s) && StepThread(cfg, s, tid, c).Some?
    ensures Base(cfg, StepThread(cfg, s, tid, c).value)
  {
    var t := s.threads[tid];
    var id := t.req.actionID;
    AdvanceMoves(cfg, t, At(s.files, id), Get(s.remote, id), Full(cfg, s.procs[tid.pid]), c);
    CommitKeepsBase(cfg, s, tid, EffectOf(cfg, s, tid, c).value);
  }

  lemma SpawnKeepsLocks(cfg: Config, threads: Threads, locks: Locks, tid: Tid, r: Request)
    requires LocksHeld(cfg, threads, locks) && PcsOk(cfg, threads) && tid !in threads
    ensures LocksHeld(cfg, threads[tid := NewThread(r)], locks) && PcsOk(cfg, threads[tid := NewThread(r)])
  {
    hide PcOk;
    assert PcOk(cfg, NewThread(r)) by { NewThreadOk(cfg, r); }
  }

  lemma NewThreadOk(cfg: Config, r: Request)
    ensures PcOk(cfg, NewThread(r)) && !InSection(NewThread(r).pc) && !NewThread(r).pc.Gone? && NewThread(r).req == r
  {
  }

  lemma SpawnKeepsOwned(threads: Threads, procs: Procs, pid: nat)
    requires Owned(threads, procs) && pid in procs && procs[pid].phase.Reading? && procs[pid].next < |procs[pid].input|
    requires !procs[pid].input[procs[pid].next].cmd.CmdClose?
    ensures var p := procs[pid]; var tid := Tid(pid, p.next);
      tid !in threads && Owned(threads[tid := NewThread(p.input[p.next])], procs[pid := p.(next := p.next + 1)])
  {
    var p := procs[pid];
    var tid := Tid(pid, p.next);
    assert tid !in threads;
    assert ThreadOwned(p.(next := p.next + 1), p.next, NewThread(p.input[p.next]));
    hide NewThread;
  }

  lemma SpawnKeepsBase(cfg: Config, threads: Threads, locks: Locks, procs: Procs, pid: nat)
    requires LocksHeld(cfg, threads, locks) && Owned(threads, procs) && PcsOk(cfg, threads)
    requires pid in procs && procs[pid].phase.Reading? && procs[pid].next < |procs[pid].input|
    requires !procs[pid].input[procs[pid].next].cmd.CmdClose?
    ensures var p := procs[pid]; var ts := threads[Tid(pid, p.next) := NewThread(p.input[p.next])];
      LocksHeld(cfg, ts, locks) && Owned(ts, procs[pid := p.(next := p.next + 1)]) && PcsOk(cfg, ts)
  {
    SpawnKeepsOwned(threads, procs, pid);
    SpawnKeepsLocks(cfg, threads, locks, Tid(pid, procs[pid].next), procs[pid].input[procs[pid].next]);
    hide LocksHeld;
    hide Owned;
    hide PcsOk;
    hide NewThread;
  }

  /** What Run's own actions leave of its process. */
  predicate ProcShape(p: Proc, idle: bool, e: ProcEffect) {
    && e.p.input == p.input && ProcOk(e.p)
    && (e.spawn.Some? ==>
          && p.phase.Reading? && p.next < |p.input| && !p.input[p.next].cmd.CmdClose?
          && e.spawn.value == NewThread(p.input[p.next]) && e.p == p.(next := p.next + 1))
    && (e.spawn.None? ==>
          && p.next <= e.p.next
          && (p.phase.Reading? || p.phase.Draining? || p.phase.Exiting? ==>
                idle || e.p.phase.Reading? || e.p.phase.Draining? || e.p.phase.Exiting?))
  }

  lemma AdvanceProcShape(p: Proc, pid: nat, idle: bool)
    requires ProcOk(p) && AdvanceProc(p, pid, idle).Some?
    ensures ProcShape(p, idle, AdvanceProc(p, pid, idle).value)
  {
  }

  lemma QuietProcOwned(threads: Threads, procs: Procs, pid: nat, e: ProcEffect)
    requires Owned(threads, procs) && pid in procs && ProcShape(procs[pid], Idle(threads, pid), e) && e.spawn.None?
    ensures Owned(threads, procs[pid := e.p])
  {
    SetProcOwned(threads, procs, pid, e.p);
  }

  lemma ProcKeepsBase(cfg: Config, s: State, pid: nat, e: ProcEffect)
    requires Base(cfg, s) && pid in s.procs && ProcShape(s.procs[pid], Idle(s.threads, pid), e)
    ensures Base(cfg, CommitProc(s, pid, e))
  {
    if e.spawn.Some? {
      SpawnKeepsBase(cfg, s.threads, s.locks, s.procs, pid);
    } else {
      QuietProcOwned(s.threads, s.procs, pid, e);
    }
  }

  lemma JobKeepsBase(cfg: Config, s: State, tid: Tid, c: Choice, e: JobEffect)
    requires Base(cfg, s) && tid in s.jobs && tid.pid in s.procs
    requires AdvanceJob(s.jobs[tid], s.procs[tid.pid], tid, c) == Some(e)
    ensures Base(cfg, CommitJob(s, tid, e))
  {
    SetProcOwned(s.threads, s.procs, tid.pid, e.p);
  }

  lemma KillKeepsBase(cfg: Config, s: State, pid: nat)
    requires Base(cfg, s) && StepKill(s, pid).Some?
    ensures Base(cfg, StepKill(s, pid).value)
  {
    SetProcOwned(DropThreads(s.threads, pid), s.procs, pid, s.procs[pid].(phase := Dead));
  }

  lemma StepKeepsBase(cfg: Config, s: State, l: Label)
    requires Base(cfg, s) && Step(cfg, s, l).Some?
    ensures Base(cfg, Step(cfg, s, l).value)
  {
    match l
    case ThreadL(tid, c) => ThreadKeepsBase(cfg, s, tid, c);
    case JobL(tid, c) => JobKeepsBase(cfg, s, tid, c, AdvanceJob(s.jobs[tid], s.procs[tid.pid], tid, c).value);
    case ProcL(pid) =>
      AdvanceProcShape(s.procs[pid], pid, Idle(s.threads, pid));
      ProcKeepsBase(cfg, s, pid, AdvanceProc(s.procs[pid], pid, Idle(s.threads, pid)).value);
    case KillL(pid) => KillKeepsBase(cfg, s, pid);
  }

  lemma {:induction false} RunKeepsBase(cfg: Config, s: State, ls: seq<Label>)
    requires Base(cfg, s) && Run(cfg, s, ls).Some?
    ensures Base(cfg, Run(cfg, s, ls).value)
    decreases |ls|
  {
    if ls != [] {
      StepKeepsBase(cfg, s, ls[0]);
      RunKeepsBase(cfg, Step(cfg, s, ls[0]).value, ls[1..]);
    }
  }

  /** In every run, at most one handler of all processes together is inside the callback for an action ID. */
  lemma OneHandlerPerAction(cfg: Config, s0: State, ls: seq<Label>, a: Tid, b: Tid)
    requires Init(cfg, s0) && Run(cfg, s0, ls).Some?
    ensures var s := Run(cfg, s0, ls).value;
      a in s.threads && b in s.threads && s.threads[a].req.actionID == s.threads[b].req.actionID ==>
        InSection(s.threads[a].pc) && InSection(s.threads[b].pc) ==> a == b
  {
    RunKeepsBase(cfg, s0, ls);
  }

  // ---------------------------------------------------------------- requests

  /** Requests never change. */
  predicate SameInputs(a: Procs, b: Procs) {
    a.Keys == b.Keys && forall pid :: pid in a ==> b[pid].input == a[pid].input
  }

  lemma ThreadKeepsInputs(cfg: Config, s: State, tid: Tid, c: Choice)
    requires StepThread(cfg, s, tid, c).Some?
    ensures SameInputs(s.procs, StepThread(cfg, s, tid, c).value.procs)
  {
    hide Advance;
    hide Relock;
  }

  lemma StepKeepsInputs(cfg: Config, s: State, l: Label)
    requires Step(cfg, s, l).Some?
    ensures SameInputs(s.procs, Step(cfg, s, l).value.procs)
  {
    hide StepThread;
    match l
    case ThreadL(tid, c) => ThreadKeepsInputs(cfg, s, tid, c);
    case JobL(tid, c) =>
      assert AdvanceJob(s.jobs[tid], s.procs[tid.pid], tid, c).value.p.input == s.procs[tid.pid].input;
      hide AdvanceJob;
    case ProcL(pid) =>
      assert AdvanceProc(s.procs[pid], pid, Idle(s.threads, pid)).value.p.input == s.procs[pid].input;
      hide AdvanceProc;
    case KillL(pid) =>
  }

  lemma {:induction false} RunKeepsInputs(cfg: Config, s: State, ls: seq<Label>)
    requires Run(cfg, s, ls).Some?
    ensures SameInputs(s.procs, Run(cfg, s, ls).value.procs)
    decreases |ls|
  {
    hide Step;
    if ls != [] {
      StepKeepsInputs(cfg, s, ls[0]);
      RunKeepsInputs(cfg, Step(cfg, s, ls[0]).value, ls[1..]);
    }
  }
}
