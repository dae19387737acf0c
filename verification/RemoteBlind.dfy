/**
  A server next to its read-only twin under the same schedule. As long as no handler sees a remote object that the run
  wrote, and compression does not fail, the twin is in the same state at every moment but for the remote half of PUTs.
 */
module RemoteBlind {
  import opened Basics
  import opened Disk
  import opened Protocol
  import opened Exclusion

  function Twin(cfg: Config): Config {
    cfg.(mode := ReadOnly)
  }

  /** The program points the read-only server does not have. */
  predicate Remote(pc: Pc) {
    pc.PutCalling? || pc.Putting? || pc.Spawning?
  }

  function Erase(t: Thread): Thread {
    if Remote(t.pc) then t.(pc := Deciding) else t
  }

  function EraseThreads(threads: Threads): Threads {
    map tid | tid in threads :: Erase(threads[tid])
  }

  function EraseProc(p: Proc): Proc {
    p.(tokens := 0, wg := 0, started := 0, succeeded := 0, failed := 0)
  }

  function EraseProcs(procs: Procs): Procs {
    map pid | pid in procs :: EraseProc(procs[pid])
  }

  /** The state with every trace of remote writing removed. */
  function Erased(s: State, remote: map<ActionID, Record>, log: seq<Event>): State {
    State(s.files, remote, s.locks, EraseThreads(s.threads), map[], EraseProcs(s.procs), log)
  }

  /** What the read-only server does when the full server does `l`; nothing while a remote write is on its way. */
  function Shown(cfg: Config, s: State, l: Label): Option<Label> {
    match l
    case JobL(_, _) => None
    case ProcL(_) => Some(l)
    case KillL(_) => Some(l)
    case ThreadL(tid, c) =>
      if tid !in s.threads || tid.pid !in s.procs || !AtRemote(s.threads[tid].pc) then Some(l)
      else
        var e := EffectOf(cfg, s, tid, c);
        if e.Some? && e.value.t.pc.Unlocking? then Some(ThreadL(tid, Go)) else None
  }

  function ShownRun(cfg: Config, s: State, ls: seq<Label>): seq<Label>
    decreases |ls|
  {
    if ls == [] then []
    else
      var rest := match Step(cfg, s, ls[0]) case None => [] case Some(u) => ShownRun(cfg, u, ls[1..]);
      var l := Shown(cfg, s, ls[0]);
      if l.Some? then [l.value] + rest else rest
  }

  // ---------------------------------------------------------------- one handler action

  lemma LookupSame(cfg: Config, t: Thread, v: View, rem: Option<Record>, rem0: Option<Record>, c: Choice)
    requires LooksUp(t.pc) && (t.pc.Fetching? ==> rem == rem0)
    ensures Lookup(Twin(cfg), t, v, rem0, c) == Lookup(cfg, t, v, rem, c)
  {
  }

  /** A twin action: the same file operation, lock operation and answer. */
  predicate Mirrors(e: Effect, e0: Effect) {
    e0.t == Erase(e.t) && e0.op == e.op && e0.event.None? && e0.spawn.None? && e0.store.None?
  }

  /** Compression cannot fail on the entry, or has nothing to do. */
  predicate Compresses(cfg: Config, e: Entry) {
    !cfg.mode.ReadOnly? && cfg.compression && e.size > 0 ==> !cfg.compressMayFail && cfg.compress(e.bytes).Some?
  }

  lemma FinishMirrors(cfg: Config, t: Thread, full: bool, c: Choice)
    requires (t.pc.Deciding? ==> Compresses(cfg, t.entry)) && Finish(cfg, t, full, c).Some?
    ensures var e := Finish(cfg, t, full, c).value;
      if !AtRemote(t.pc) then Finish(Twin(cfg), t, false, c).Some? && Mirrors(e, Finish(Twin(cfg), t, false, c).value)
      else if e.t.pc.Unlocking? then Finish(Twin(cfg), Erase(t), false, Go).Some? && Mirrors(e, Finish(Twin(cfg),
          Erase(t), false, Go).value)
      else Erase(e.t) == Erase(t) && e.op.Nop?
  {
  }

  lemma WriteMirrors(cfg: Config, t: Thread, c: Choice)
    ensures WritesData(t.pc) && WriteData(t, c).Some? ==> Mirrors(WriteData(t, c).value, WriteData(t, c).value)
    ensures WriteMeta(Twin(cfg), t, c) == WriteMeta(cfg, t, c)
    ensures WritesMeta(t.pc) && WriteMeta(cfg, t, c).Some? ==>
      Mirrors(WriteMeta(cfg, t, c).value, WriteMeta(cfg, t, c).value)
  {
  }

  lemma LookupMirrors(cfg: Config, t: Thread, v: View, rem: Option<Record>, c: Choice)
    requires LooksUp(t.pc) && Lookup(cfg, t, v, rem, c).Some?
    ensures Mirrors(Lookup(cfg, t, v, rem, c).value, Lookup(cfg, t, v, rem, c).value)
  {
  }

  /** No handler sees a remote object that this run wrote, and none will fail to compress. */
  predicate Blind(cfg: Config, s: State, before: map<ActionID, Record>) {
    forall tid :: tid in s.threads ==> BlindThread(cfg, s, s.threads[tid], before)
  }

  predicate BlindThread(cfg: Config, s: State, t: Thread, before: map<ActionID, Record>) {
    && (t.pc.Fetching? ==> Get(s.remote, t.req.actionID) == Get(before, t.req.actionID))
    && (t.pc.Deciding? ==> Compresses(cfg, t.entry))
  }

  /** The choice the twin makes for the same action. */
  function TwinChoice(t: Thread, c: Choice): Choice {
    if AtRemote(t.pc) then Go else c
  }

  lemma AdvanceMirrors(cfg: Config, t: Thread, v: View, rem: Option<Record>, rem0: Option<Record>, full: bool,
                       c: Choice)
    requires (t.pc.Deciding? ==> Compresses(cfg, t.entry))
    requires (t.pc.Fetching? ==> rem == rem0) && Advance(cfg, t, v, rem, full, c).Some?
    ensures var e := Advance(cfg, t, v, rem, full, c).value;
      if AtRemote(t.pc) && !e.t.pc.Unlocking? then Erase(e.t) == Erase(t) && e.op.Nop?
      else
        && Advance(Twin(cfg), Erase(t), v, rem0, false, TwinChoice(t, c)).Some?
        && Mirrors(e, Advance(Twin(cfg), Erase(t), v, rem0, false, TwinChoice(t, c)).value)
  {
    hide Mirrors;
    if LooksUp(t.pc) {
      LookupSame(cfg, t, v, rem, rem0, c);
      LookupMirrors(cfg, t, v, rem, c);
    } else if WritesData(t.pc) || WritesMeta(t.pc) {
      WriteMirrors(cfg, t, c);
    } else {
      FinishMirrors(cfg, t, full, c);
    }
  }

  // ---------------------------------------------------------------- one action of the system

  lemma ErasedThreadsAfter(threads: Threads, tid: Tid, u: Thread)
    ensures EraseThreads(threads[tid := u]) == EraseThreads(threads)[tid := Erase(u)]
    ensures EraseThreads(threads - {tid}) == EraseThreads(threads) - {tid}
  {
  }

  lemma ErasedProcsAfter(procs: Procs, pid: nat, q: Proc)
    ensures EraseProcs(procs[pid := q]) == EraseProcs(procs)[pid := EraseProc(q)]
  {
  }

  lemma ErasedMove(cfg: Config, p: Proc, tid: Tid, t: Thread, e: Effect, e0: Effect)
    requires Mirrors(e, e0)
    ensures AfterMove(Twin(cfg), EraseProc(p), tid, Erase(t), e0) == EraseProc(AfterMove(cfg, p, tid, t, e))
  {
  }

  lemma ErasedLocks(cfg: Config, locks: Locks, tid: Tid, t: Thread, u: Thread)
    ensures Relock(Twin(cfg), locks, tid, Erase(t), Erase(u)) == Relock(cfg, locks, tid, t, u)
    ensures InSection(Erase(u).pc) == InSection(u.pc) && (Erase(u).pc.Gone? <==> u.pc.Gone?) && Erase(u).req == u.req
  {
  }

  lemma MirrorCommits(cfg: Config, s: State, before: map<ActionID, Record>, log: seq<Event>, tid: Tid, e: Effect,
                      e0: Effect)
    requires tid in s.threads && tid.pid in s.procs && Mirrors(e, e0)
    ensures var r := Erased(s, before, log);
      tid in r.threads && tid.pid in r.procs && Commit(Twin(cfg), r, tid, e0) == Erased(Commit(cfg, s, tid, e), before,
          log)
  {
    var r := Erased(s, before, log);
    var t := s.threads[tid];
    assert r.threads[tid] == Erase(t) && r.procs[tid.pid] == EraseProc(s.procs[tid.pid]);
    ErasedThreadsAfter(s.threads, tid, e.t);
    ErasedProcsAfter(s.procs, tid.pid, AfterMove(cfg, s.procs[tid.pid], tid, t, e));
    ErasedMove(cfg, s.procs[tid.pid], tid, t, e, e0);
    ErasedLocks(cfg, s.locks, tid, t, e.t);
    ErasedLocks(cfg, s.locks, tid, t, t);
    hide EraseThreads;
    hide EraseProcs;
    hide EraseProc;
    hide Erase;
    hide AfterMove;
    hide Relock;
  }

  /** The twin's action, worked out on the handler alone. */
  lemma TwinAdvance(cfg: Config, t: Thread, v: View, rem: Option<Record>, rem0: Option<Record>, full: bool, c: Choice,
                    e: Effect) returns (e0: Effect)
    requires (t.pc.Deciding? ==> Compresses(cfg, t.entry)) && (t.pc.Fetching? ==> rem == rem0)
    requires Advance(cfg, t, v, rem, full, c) == Some(e) && (AtRemote(t.pc) ==> e.t.pc.Unlocking?)
    ensures Advance(Twin(cfg), Erase(t), v, rem0, false, TwinChoice(t, c)) == Some(e0) && Mirrors(e, e0)
  {
    AdvanceMirrors(cfg, t, v, rem, rem0, full, c);
    hide Advance;
    hide Mirrors;
    e0 := Advance(Twin(cfg), Erase(t), v, rem0, false, TwinChoice(t, c)).value;
  }

  /** The twin's handler sees the same files and a semaphore that is never full. */
  lemma TwinSees(cfg: Config, s: State, before: map<ActionID, Record>, log: seq<Event>, tid: Tid, c: Choice)
    requires tid in s.threads && tid.pid in s.procs
    ensures var r := Erased(s, before, log); var t := s.threads[tid];
      && tid in r.threads && tid.pid in r.procs
      && EffectOf(Twin(cfg), r, tid, c) ==
           Advance(Twin(cfg), Erase(t), At(s.files, t.req.actionID), Get(before, t.req.actionID), false, c)
  {
    hide Advance;
    var r := Erased(s, before, log);
    assert r.threads[tid] == Erase(s.threads[tid]);
    ErasedLocks(cfg, s.locks, tid, s.threads[tid], s.threads[tid]);
    hide EraseThreads;
    hide EraseProcs;
    hide Erase;
  }

  lemma TwinEffect(cfg: Config, s: State, before: map<ActionID, Record>, log: seq<Event>, tid: Tid, c: Choice,
                   e: Effect) returns (e0: Effect)
    requires Blind(cfg, s, before)
    requires tid in s.threads && tid.pid in s.procs && EffectOf(cfg, s, tid, c) == Some(e)
    requires (AtRemote(s.threads[tid].pc) ==> e.t.pc.Unlocking?)
    ensures var r := Erased(s, before, log);
      tid in r.threads && tid.pid in r.procs && EffectOf(Twin(cfg), r, tid, TwinChoice(s.threads[tid],
          c)) == Some(e0) && Mirrors(e, e0)
  {
    hide Advance;
    hide Mirrors;
    hide Erased;
    var t := s.threads[tid];
    var id := t.req.actionID;
    assert BlindThread(cfg, s, t, before);
    hide Blind;
    TwinSees(cfg, s, before, log, tid, TwinChoice(t, c));
    e0 := TwinAdvance(cfg, t, At(s.files, id), Get(s.remote, id), Get(before, id), Full(cfg, s.procs[tid.pid]), c, e);
  }

  /** A visible handler action is an action of the read-only server. */
  lemma ThreadShown(cfg: Config, s: State, before: map<ActionID, Record>, log: seq<Event>, tid: Tid, c: Choice)
    requires Blind(cfg, s, before)
    requires StepThread(cfg, s, tid, c).Some? && Shown(cfg, s, ThreadL(tid, c)).Some?
    ensures StepThread(Twin(cfg), Erased(s, before, log), tid, TwinChoice(s.threads[tid], c))
         == Some(Erased(StepThread(cfg, s, tid, c).value, before, log))
  {
    hide Blind;
    hide EffectOf;
    hide Commit;
    hide Erase;
    var t := s.threads[tid];
    var e := EffectOf(cfg, s, tid, c).value;
    var e0 := TwinEffect(cfg, s, before, log, tid, c, e);
    ErasedLocks(cfg, s.locks, tid, t, t);
    ErasedLocks(cfg, s.locks, tid, t, e.t);
    MirrorCommits(cfg, s, before, log, tid, e, e0);
    assert Erased(s, before, log).threads[tid] == Erase(t);
  }

  /** A hidden handler action leaves the read-only server where it is. */
  lemma ThreadHidden(cfg: Config, s: State, before: map<ActionID, Record>, log: seq<Event>, tid: Tid, c: Choice)
    requires Blind(cfg, s, before)
    requires StepThread(cfg, s, tid, c).Some? && Shown(cfg, s, ThreadL(tid, c)).None?
    ensures Erased(StepThread(cfg, s, tid, c).value, before, log) == Erased(s, before, log)
  {
    var t := s.threads[tid];
    var id := t.req.actionID;
    var e := EffectOf(cfg, s, tid, c).value;
    assert BlindThread(cfg, s, t, before);
    hide Blind;
    AdvanceMirrors(cfg, t, At(s.files, id), Get(s.remote, id), Get(s.remote, id), Full(cfg, s.procs[tid.pid]), c);
    hide Advance;
    HiddenCommit(cfg, s, before, log, tid, e);
  }

  lemma HiddenCommit(cfg: Config, s: State, before: map<ActionID, Record>, log: seq<Event>, tid: Tid, e: Effect)
    requires tid in s.threads && tid.pid in s.procs && AtRemote(s.threads[tid].pc)
    requires Erase(e.t) == Erase(s.threads[tid]) && e.op.Nop?
    ensures Erased(Commit(cfg, s, tid, e), before, log) == Erased(s, before, log)
  {
    var q := AfterMove(cfg, s.procs[tid.pid], tid, s.threads[tid], e);
    ErasedThreadsAfter(s.threads, tid, e.t);
    ErasedProcsAfter(s.procs, tid.pid, q);
    ErasedLocks(cfg, s.locks, tid, s.threads[tid], e.t);
    ErasedLocks(cfg, s.locks, tid, s.threads[tid], s.threads[tid]);
    assert EraseProc(q) == EraseProc(s.procs[tid.pid]);
    assert EraseThreads(s.threads)[tid := Erase(s.threads[tid])] == EraseThreads(s.threads);
    assert EraseProcs(s.procs)[tid.pid := EraseProc(s.procs[tid.pid])] == EraseProcs(s.procs);
  }

  lemma JobHidden(s: State, before: map<ActionID, Record>, log: seq<Event>, tid: Tid, c: Choice)
    requires StepJob(s, tid, c).Some?
    ensures Erased(StepJob(s, tid, c).value, before, log) == Erased(s, before, log)
  {
    var e := AdvanceJob(s.jobs[tid], s.procs[tid.pid], tid, c).value;
    ErasedProcsAfter(s.procs, tid.pid, e.p);
    assert EraseProc(e.p) == EraseProc(s.procs[tid.pid]);
    assert EraseProcs(s.procs)[tid.pid := EraseProc(s.procs[tid.pid])] == EraseProcs(s.procs);
  }

  lemma ProcTwin(p: Proc, pid: nat, idle: bool)
    requires AdvanceProc(p, pid, idle).Some?
    ensures var e := AdvanceProc(p, pid, idle).value;
      AdvanceProc(EraseProc(p), pid, idle) == Some(ProcEffect(EraseProc(e.p), e.spawn, e.event))
      && (e.spawn.Some? ==> Erase(e.spawn.value) == e.spawn.value)
  {
  }

  lemma ProcCommitTwin(s: State, before: map<ActionID, Record>, log: seq<Event>, pid: nat, e: ProcEffect)
    requires pid in s.procs && (e.spawn.Some? ==> Erase(e.spawn.value) == e.spawn.value)
    ensures pid in EraseProcs(s.procs)
    ensures CommitProc(Erased(s, before, log), pid, ProcEffect(EraseProc(e.p), e.spawn, e.event))
         == Erased(CommitProc(s, pid, e), before, if e.event.Some? then log + [e.event.value] else log)
  {
    ErasedProcsAfter(s.procs, pid, e.p);
    if e.spawn.Some? {
      ErasedThreadsAfter(s.threads, Tid(pid, s.procs[pid].next), e.spawn.value);
    }
    hide EraseThreads;
    hide Erase;
    assert DropJobs(map[], pid) == map[];
  }

  lemma ProcShown(s: State, before: map<ActionID, Record>, log: seq<Event>, pid: nat) returns (log': seq<Event>)
    requires StepProc(s, pid).Some?
    ensures StepProc(Erased(s, before, log), pid) == Some(Erased(StepProc(s, pid).value, before, log'))
  {
    var e := AdvanceProc(s.procs[pid], pid, Idle(s.threads, pid)).value;
    log' := if e.event.Some? then log + [e.event.value] else log;
    ProcTwin(s.procs[pid], pid, Idle(s.threads, pid));
    IdleTwin(s.threads, pid);
    hide AdvanceProc;
    hide EraseThreads;
    hide EraseProc;
    hide Erase;
    hide CommitProc;
    hide Idle;
    ProcCommitTwin(s, before, log, pid, e);
    assert EraseProcs(s.procs)[pid] == EraseProc(s.procs[pid]);
  }

  lemma IdleTwin(threads: Threads, pid: nat)
    ensures Idle(EraseThreads(threads), pid) == Idle(threads, pid)
  {
    forall tid ensures tid in EraseThreads(threads) <==> tid in threads {}
  }

  lemma KillShown(s: State, before: map<ActionID, Record>, log: seq<Event>, pid: nat)
    requires StepKill(s, pid).Some?
    ensures StepKill(Erased(s, before, log), pid) == Some(Erased(StepKill(s, pid).value, before, log))
  {
    ErasedProcsAfter(s.procs, pid, s.procs[pid].(phase := Dead));
    assert EraseThreads(DropThreads(s.threads, pid)) == DropThreads(EraseThreads(s.threads), pid);
  }

  // ---------------------------------------------------------------- whole runs

  /** One action of the full server is one action of the read-only server, or none. */
  lemma StepShown(cfg: Config, s: State, before: map<ActionID, Record>, log: seq<Event>, l: Label)
      returns (log': seq<Event>)
    requires Blind(cfg, s, before) && Step(cfg, s, l).Some?
    ensures var r := Erased(s, before, log); var r' := Erased(Step(cfg, s, l).value, before, log');
      if Shown(cfg, s, l).None? then r' == r else Step(Twin(cfg), r, Shown(cfg, s, l).value) == Some(r')
  {
    hide Blind;
    hide Erased;
    hide StepThread;
    hide StepJob;
    hide StepProc;
    hide StepKill;
    log' := log;
    match l
    case ThreadL(tid, c) =>
      if Shown(cfg, s, l).Some? {
        ThreadShown(cfg, s, before, log, tid, c);
        ShownChoice(cfg, s, tid, c);
      } else {
        ThreadHidden(cfg, s, before, log, tid, c);
      }
    case JobL(tid, c) => JobHidden(s, before, log, tid, c);
    case ProcL(pid) => log' := ProcShown(s, before, log, pid);
    case KillL(pid) => KillShown(s, before, log, pid);
  }

  lemma ShownChoice(cfg: Config, s: State, tid: Tid, c: Choice)
    requires StepThread(cfg, s, tid, c).Some? && Shown(cfg, s, ThreadL(tid, c)).Some?
    ensures tid in s.threads && Shown(cfg, s, ThreadL(tid, c)).value == ThreadL(tid, TwinChoice(s.threads[tid], c))
  {
    hide EffectOf;
    hide Commit;
  }

  /** Blind at every moment of the run. */
  predicate BlindRun(cfg: Config, s: State, ls: seq<Label>, before: map<ActionID, Record>)
    decreases |ls|
  {
    && Blind(cfg, s, before)
    && (ls != [] && Step(cfg, s, ls[0]).Some? ==> BlindRun(cfg, Step(cfg, s, ls[0]).value, ls[1..], before))
  }

  /** A blind run, with its remote actions left out, is a run of the read-only server. */
  lemma {:induction false} RunShown(cfg: Config, s: State, before: map<ActionID, Record>, log: seq<Event>,
                                    ls: seq<Label>)
      returns (log': seq<Event>)
    requires BlindRun(cfg, s, ls, before) && Run(cfg, s, ls).Some?
    ensures Run(Twin(cfg), Erased(s, before, log), ShownRun(cfg, s, ls)) ==
      Some(Erased(Run(cfg, s, ls).value, before, log'))
    decreases |ls|
  {
    hide Erased;
    hide Shown;
    hide Blind;
    if ls == [] {
      log' := log;
    } else {
      var u := Step(cfg, s, ls[0]).value;
      var mid := StepShown(cfg, s, before, log, ls[0]);
      hide Step;
      log' := RunShown(cfg, u, before, mid, ls[1..]);
      RunPrefix(Twin(cfg), Erased(s, before, log), Shown(cfg, s, ls[0]), Erased(u, before, mid), ShownRun(cfg, u,
          ls[1..]));
    }
  }

  lemma RunPrefix(cfg: Config, r: State, l: Option<Label>, u: State, rest: seq<Label>)
    requires if l.None? then u == r else Step(cfg, r, l.value) == Some(u)
    ensures Run(cfg, r, if l.Some? then [l.value] + rest else rest) == Run(cfg, u, rest)
  {
    hide Step;
    if l.Some? {
      assert ([l.value] + rest)[1..] == rest;
    }
  }

  lemma InitIsBlank(cfg: Config, s: State)
    requires Init(cfg, s)
    ensures Erased(s, s.remote, []) == s
  {
    forall pid | pid in s.procs ensures EraseProc(s.procs[pid]) == s.procs[pid] {
      assert FreshProc(s.procs[pid]);
    }
  }
}
