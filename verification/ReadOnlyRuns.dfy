/**
  The converse of Invisible: every run of the read-only server is what shows of some run of a server that puts, in any
  mode. The puts of that run all fail, and asynchronous ones are over before anybody else moves.
 */
module ReadOnlyRuns {
  import opened Basics
  import opened Disk
  import opened Protocol
  import opened Exclusion
  import opened RemoteBlind
  import opened Solo
  import opened Sources
  import opened Invisible

  /** `s` is reached from `s0` by a run that shows as `ks`, and the read-only server's run `ks` keeps up with it. */
  ghost predicate Tracks(cfg: Config, s0: State, s: State, ks: seq<Label>, log: seq<Event>) {
    && (exists ls :: Run(cfg, s0, ls) == Some(s) && ShownRun(cfg, s0, ls) == ks)
    && Run(Twin(cfg), s0, ks) == Some(Erased(s, s0.remote, log))
  }

  lemma {:induction false} HiddenAppend(cfg: Config, s: State, ls: seq<Label>, l: Label)
    requires Run(cfg, s, ls).Some? && Step(cfg, Run(cfg, s, ls).value, l).Some?
    requires Shown(cfg, Run(cfg, s, ls).value, l).None?
    ensures ShownRun(cfg, s, ls + [l]) == ShownRun(cfg, s, ls)
    decreases |ls|
  {
    hide Step;
    hide Shown;
    if ls == [] {
      assert [l][1..] == [];
      assert ls + [l] == [l];
    } else {
      assert (ls + [l])[1..] == ls[1..] + [l];
      HiddenAppend(cfg, Step(cfg, s, ls[0]).value, ls[1..], l);
    }
  }

  function Extended(cfg: Config, s: State, ks: seq<Label>, l: Label): seq<Label> {
    if Shown(cfg, s, l).Some? then ks + [Shown(cfg, s, l).value] else ks
  }

  /** One more action of the full server. */
  lemma TrackStep(cfg: Config, s0: State, s: State, ks: seq<Label>, log: seq<Event>, l: Label)
      returns (log': seq<Event>)
    requires Tracks(cfg, s0, s, ks, log) && Blind(cfg, s, s0.remote) && Step(cfg, s, l).Some?
    ensures Tracks(cfg, s0, Step(cfg, s, l).value, Extended(cfg, s, ks, l), log')
  {
    var u := Step(cfg, s, l).value;
    log' := StepShown(cfg, s, s0.remote, log, l);
    var ls :| Run(cfg, s0, ls) == Some(s) && ShownRun(cfg, s0, ls) == ks;
    RunAppend(cfg, s0, ls, l);
    hide Step;
    hide Shown;
    hide Erased;
    hide Blind;
    if Shown(cfg, s, l).Some? {
      ShownAppend(cfg, s0, ls, l);
      RunAppend(Twin(cfg), s0, ks, Shown(cfg, s, l).value);
    } else {
      HiddenAppend(cfg, s0, ls, l);
    }
    assert Run(cfg, s0, ls + [l]) == Some(u);
  }

  // ---------------------------------------------------------------- between the puts

  /** Nothing remote is under way, and nothing has been stored. */
  predicate Plain(s: State, before: map<ActionID, Record>) {
    && s.remote == before && s.jobs == map[]
    && (forall tid :: tid in s.threads ==> !Remote(s.threads[tid].pc))
    && (forall pid :: pid in s.procs ==> s.procs[pid].tokens == 0 && s.procs[pid].wg == 0)
  }

  ghost predicate Settled(cfg: Config, s0: State, s: State) {
    Base(cfg, s) && Sourced(cfg, s0, s) && s.remote == s0.remote
  }

  lemma SettledIsBlind(cfg: Config, s0: State, s: State)
    requires Settled(cfg, s0, s) && Uploadable(cfg, s0.procs)
    ensures Blind(cfg, s, s0.remote)
  {
    QuietIsBlind(cfg, s0, s);
  }

  lemma StepSettled(cfg: Config, s0: State, s: State, l: Label)
    requires Settled(cfg, s0, s) && Step(cfg, s, l).Some? && Step(cfg, s, l).value.remote == s.remote
    ensures Settled(cfg, s0, Step(cfg, s, l).value)
  {
    StepSourced(cfg, s0, s, l);
    StepKeepsBase(cfg, s, l);
    hide Base;
    hide Sourced;
    hide Step;
  }

  /** Away from the remote half of a PUT both servers can do the same. */
  lemma OrdinarySame(cfg: Config, t: Thread, v: View, rem: Option<Record>, full: bool, c: Choice)
    requires !AtRemote(t.pc) || cfg.mode.ReadOnly?
    ensures Advance(Twin(cfg), t, v, rem, false, c) == Advance(cfg, t, v, rem, full, c) || Remote(t.pc)
  {
  }

  lemma OrdinaryEffect(cfg: Config, t: Thread, v: View, rem: Option<Record>, full: bool, c: Choice)
    requires !AtRemote(t.pc) || (t.pc.Deciding? && cfg.mode.ReadOnly?)
    requires Advance(cfg, t, v, rem, full, c).Some?
    ensures var e := Advance(cfg, t, v, rem, full, c).value;
      !Remote(e.t.pc) && e.store.None? && e.spawn.None? && e.event.None?
    ensures t.pc.Deciding? ==> Advance(cfg, t, v, rem, full, c).value.t.pc.Unlocking? && c == Go
  {
  }

  /** A handler action of the read-only server that is not the decision of a PUT to be uploaded. */
  predicate Ordinary(cfg: Config, s: State, k: Label) {
    k.ThreadL? && k.tid in s.threads && s.threads[k.tid].pc.Deciding? ==> cfg.mode.ReadOnly?
  }

  lemma OrdinaryThread(cfg: Config, s: State, before: map<ActionID, Record>, log: seq<Event>, tid: Tid, c: Choice)
    requires Plain(s, before) && Ordinary(cfg, s, ThreadL(tid, c))
    requires StepThread(Twin(cfg), Erased(s, before, log), tid, c).Some?
    ensures StepThread(cfg, s, tid, c).Some? && Shown(cfg, s, ThreadL(tid, c)) == Some(ThreadL(tid, c))
    ensures Plain(StepThread(cfg, s, tid, c).value, before)
  {
    var r := Erased(s, before, log);
    assert r.threads.Keys == s.threads.Keys && r.procs.Keys == s.procs.Keys;
    var t := s.threads[tid];
    var id := t.req.actionID;
    var full := Full(cfg, s.procs[tid.pid]);
    TwinSees(cfg, s, before, log, tid, c);
    assert Erase(t) == t;
    assert r.threads[tid] == t;
    OrdinarySame(cfg, t, At(s.files, id), Get(before, id), full, c);
    var e := EffectOf(Twin(cfg), r, tid, c).value;
    assert EffectOf(cfg, s, tid, c) == Some(e);
    OrdinaryEffect(cfg, t, At(s.files, id), Get(before, id), full, c);
    hide Advance;
    OrdinaryCommit(cfg, s, before, tid, e);
    hide Commit;
  }

  lemma OrdinaryCommit(cfg: Config, s: State, before: map<ActionID, Record>, tid: Tid, e: Effect)
    requires Plain(s, before) && tid in s.threads && tid.pid in s.procs
    requires !Remote(e.t.pc) && e.store.None? && e.spawn.None? && e.event.None?
    ensures Plain(Commit(cfg, s, tid, e), before)
  {
    hide Relock;
  }

  lemma SameAdvance(p: Proc, pid: nat, idle: bool)
    requires p.wg == 0
    ensures AdvanceProc(EraseProc(p), pid, idle).Some? <==> AdvanceProc(p, pid, idle).Some?
    ensures AdvanceProc(p, pid, idle).Some? ==>
      var e := AdvanceProc(p, pid, idle).value;
      e.p.tokens == p.tokens && e.p.wg == p.wg && (e.spawn.Some? ==> !Remote(e.spawn.value.pc))
  {
  }

  lemma OrdinaryProc(cfg: Config, s: State, before: map<ActionID, Record>, log: seq<Event>, pid: nat)
    requires Plain(s, before) && StepProc(Erased(s, before, log), pid).Some?
    ensures StepProc(s, pid).Some? && Plain(StepProc(s, pid).value, before)
  {
    assert pid in s.procs;
    SameAdvance(s.procs[pid], pid, Idle(s.threads, pid));
    IdleTwin(s.threads, pid);
    assert Erased(s, before, log).procs[pid] == EraseProc(s.procs[pid]);
    hide AdvanceProc;
    hide EraseProc;
    hide EraseThreads;
  }

  lemma OrdinaryKill(s: State, before: map<ActionID, Record>, log: seq<Event>, pid: nat)
    requires Plain(s, before) && StepKill(Erased(s, before, log), pid).Some?
    ensures StepKill(s, pid).Some? && Plain(StepKill(s, pid).value, before)
  {
    assert pid in s.procs && Erased(s, before, log).procs[pid] == EraseProc(s.procs[pid]);
    hide EraseThreads;
  }

  /** Any action of the read-only server but such a decision is an action of the full server, and shows as itself. */
  lemma OrdinaryStep(cfg: Config, s: State, before: map<ActionID, Record>, log: seq<Event>, k: Label)
    requires Plain(s, before) && Ordinary(cfg, s, k) && Step(Twin(cfg), Erased(s, before, log), k).Some?
    ensures Step(cfg, s, k).Some? && Shown(cfg, s, k) == Some(k) && Plain(Step(cfg, s, k).value, before)
  {
    hide Plain;
    hide StepThread;
    hide StepProc;
    hide StepKill;
    hide Erased;
    match k
    case ThreadL(tid, c) => OrdinaryThread(cfg, s, before, log, tid, c);
    case JobL(tid, c) => NoTwinJobs(s, before, log, tid, c);
    case ProcL(pid) => OrdinaryProc(cfg, s, before, log, pid);
    case KillL(pid) => OrdinaryKill(s, before, log, pid);
  }

  lemma NoTwinJobs(s: State, before: map<ActionID, Record>, log: seq<Event>, tid: Tid, c: Choice)
    ensures StepJob(Erased(s, before, log), tid, c).None?
  {
  }

  // ---------------------------------------------------------------- a PUT that is uploaded

  /** As Plain, but for one PUT at `pc`, and the upload of the same handler at `job` if it has been started. */
  predicate Busy(cfg: Config, s: State, before: map<ActionID, Record>, tid: Tid, pc: Pc, job: Option<JobPc>) {
    && s.remote == before && tid in s.threads && tid.pid in s.procs && s.threads[tid].pc == pc
    && s.threads[tid].req.cmd == CmdPut
    && (forall x :: x in s.threads && x != tid ==> !Remote(s.threads[x].pc))
    && (if job.None? then s.jobs == map[] else s.jobs.Keys == {tid} && s.jobs[tid].pc == job.value)
    && (forall pid :: pid in s.procs && pid != tid.pid ==> s.procs[pid].tokens == 0 && s.procs[pid].wg == 0)
    && s.procs[tid.pid].tokens == (if pc.Spawning? || (job.Some? && !job.value.Finishing?) then 1 else 0)
    && s.procs[tid.pid].wg == (if job.Some? then 1 else 0)
  }

  /** One action on the way from the decision to the unlock. */
  lemma BusyThread(cfg: Config, s: State, before: map<ActionID, Record>, tid: Tid, pc: Pc, c: Choice, e: Effect)
    requires Busy(cfg, s, before, tid, pc, None) && InSection(pc)
    requires Finish(cfg, s.threads[tid], Full(cfg, s.procs[tid.pid]), c) == Some(e) && AtRemote(pc)
    requires e.store.None? && e.t.req == s.threads[tid].req && InSection(e.t.pc) && e.op.Nop?
    requires e.t.pc.Spawning? <==> e.event == Some(EvIssued(true))
    requires (pc.Spawning? <==> e.spawn.Some?) && (pc.Spawning? ==> !e.t.pc.Spawning?)
    ensures Step(cfg, s, ThreadL(tid, c)) == Some(Commit(cfg, s, tid, e))
    ensures Busy(cfg, Commit(cfg, s, tid, e), before, tid, e.t.pc, if e.spawn.Some? then Some(Running) else None)
  {
    hide Finish;
    hide Relock;
    BusyCommit(cfg, s, before, tid, pc, e);
    hide Busy;
    hide Commit;
  }

  lemma BusyCommit(cfg: Config, s: State, before: map<ActionID, Record>, tid: Tid, pc: Pc, e: Effect)
    requires Busy(cfg, s, before, tid, pc, None) && InSection(e.t.pc) && e.t.req == s.threads[tid].req && e.store.None?
    requires e.t.pc.Spawning? <==> e.event == Some(EvIssued(true))
    requires (pc.Spawning? <==> e.spawn.Some?) && (pc.Spawning? ==> !e.t.pc.Spawning?)
    ensures Busy(cfg, Commit(cfg, s, tid, e), before, tid, e.t.pc, if e.spawn.Some? then Some(Running) else None)
  {
    hide Relock;
  }

  /** One action of its upload, which fails. */
  lemma BusyJob(cfg: Config, s: State, before: map<ActionID, Record>, tid: Tid, pc: Pc, job: JobPc) returns (l: Label)
    requires Busy(cfg, s, before, tid, pc, Some(job)) && pc.Unlocking?
    ensures l.JobL? && Step(cfg, s, l).Some?
    ensures Busy(cfg, Step(cfg, s, l).value, before, tid, pc, match job
      case Running => Some(Counting(false))
      case Counting(_) => Some(Releasing)
      case Releasing => Some(Finishing)
      case Finishing => None)
  {
    l := JobL(tid, if job.Running? then Fail else Go);
    assert tid in s.jobs;
  }

  /** The PUT is uploaded and back at its unlock. */
  lemma BusyIsPlain(cfg: Config, s: State, before: map<ActionID, Record>, tid: Tid)
    requires Busy(cfg, s, before, tid, Unlocking, None)
    ensures Plain(s, before)
  {
  }

  // ---------------------------------------------------------------- putting it together

  /** A state of the full server that the read-only server's run `ks` keeps up with. */
  ghost predicate Keeps(cfg: Config, s0: State, s: State, ks: seq<Label>, log: seq<Event>) {
    Tracks(cfg, s0, s, ks, log) && Settled(cfg, s0, s)
  }

  lemma KeepStep(cfg: Config, s0: State, s: State, ks: seq<Label>, log: seq<Event>, l: Label) returns (log': seq<Event>)
    requires Uploadable(cfg, s0.procs) && Keeps(cfg, s0, s, ks, log) && Step(cfg, s, l).Some?
    requires Step(cfg, s, l).value.remote == s.remote
    ensures Keeps(cfg, s0, Step(cfg, s, l).value, Extended(cfg, s, ks, l), log')
  {
    hide Tracks;
    SettledIsBlind(cfg, s0, s);
    StepSettled(cfg, s0, s, l);
    hide Settled;
    hide Step;
    hide Blind;
    hide Extended;
    log' := TrackStep(cfg, s0, s, ks, log, l);
  }

  /** From the decision, one action after the other, to the state in which the handler is about to unlock. */
  lemma UploadHidden(cfg: Config, s0: State, s: State, ks: seq<Label>, log: seq<Event>, tid: Tid)
      returns (u: State, log': seq<Event>)
    requires Uploadable(cfg, s0.procs) && Keeps(cfg, s0, s, ks, log) && !cfg.mode.ReadOnly?
    requires Busy(cfg, s, s0.remote, tid, Deciding, None) && CanUpload(cfg, s.threads[tid].entry)
    ensures Keeps(cfg, s0, u, ks + [ThreadL(tid, Go)], log')
    ensures Busy(cfg, u, s0.remote, tid, Unlocking, None)
      || Busy(cfg, u, s0.remote, tid, Unlocking, Some(Running))
  {
    hide Keeps;
    hide Uploadable;
    var t := s.threads[tid];
    var e1 := Move(t, PutCalling);
    BusyThread(cfg, s, s0.remote, tid, Deciding, Go, e1);
    ThreadAfter(cfg, s, tid, e1);
    HiddenMove(cfg, s, tid, Go, e1);
    log' := KeepStep(cfg, s0, s, ks, log, ThreadL(tid, Go));
    var a := Commit(cfg, s, tid, e1);
    u, log' := CallHidden(cfg, s0, a, ks, log', tid);
  }

  lemma ThreadAfter(cfg: Config, s: State, tid: Tid, e: Effect)
    requires tid in s.threads && tid.pid in s.procs && !e.t.pc.Gone?
    ensures var u := Commit(cfg, s, tid, e);
      tid in u.threads && u.threads[tid] == e.t && (e.store.None? ==> u.remote == s.remote)
  {
    hide Relock;
    hide AfterMove;
  }

  /** What shows of an action in the remote half of a PUT. */
  lemma HiddenMove(cfg: Config, s: State, tid: Tid, c: Choice, e: Effect)
    requires tid in s.threads && tid.pid in s.procs && AtRemote(s.threads[tid].pc)
    requires Finish(cfg, s.threads[tid], Full(cfg, s.procs[tid.pid]), c) == Some(e)
    ensures Shown(cfg, s, ThreadL(tid, c)) == if e.t.pc.Unlocking? then Some(ThreadL(tid, Go)) else None
  {
    hide Finish;
  }

  lemma CallHidden(cfg: Config, s0: State, s: State, ks: seq<Label>, log: seq<Event>, tid: Tid)
      returns (u: State, log': seq<Event>)
    requires Uploadable(cfg, s0.procs) && Keeps(cfg, s0, s, ks, log) && !cfg.mode.ReadOnly?
    requires Busy(cfg, s, s0.remote, tid, PutCalling, None) && CanUpload(cfg, s.threads[tid].entry)
    ensures Keeps(cfg, s0, u, ks + [ThreadL(tid, Go)], log')
    ensures Busy(cfg, u, s0.remote, tid, Unlocking, None)
      || Busy(cfg, u, s0.remote, tid, Unlocking, Some(Running))
  {
    hide Keeps;
    hide Uploadable;
    var t := s.threads[tid];
    var full := Full(cfg, s.procs[tid.pid]);
    var next := if cfg.mode.Sync? then Putting else if full then Unlocking else Spawning;
    var e := Move(t, next).(event := Some(EvIssued(next.Spawning?)));
    BusyThread(cfg, s, s0.remote, tid, PutCalling, Go, e);
    ThreadAfter(cfg, s, tid, e);
    HiddenMove(cfg, s, tid, Go, e);
    log' := KeepStep(cfg, s0, s, ks, log, ThreadL(tid, Go));
    u := Commit(cfg, s, tid, e);
    if !next.Unlocking? {
      u, log' := PutHidden(cfg, s0, u, ks, log', tid, next);
    }
  }

  lemma PutHidden(cfg: Config, s0: State, s: State, ks: seq<Label>, log: seq<Event>, tid: Tid, pc: Pc)
      returns (u: State, log': seq<Event>)
    requires Uploadable(cfg, s0.procs) && Keeps(cfg, s0, s, ks, log) && (pc.Putting? || pc.Spawning?)
    requires Busy(cfg, s, s0.remote, tid, pc, None) && CanUpload(cfg, s.threads[tid].entry)
    ensures Keeps(cfg, s0, u, ks + [ThreadL(tid, Go)], log')
    ensures Busy(cfg, u, s0.remote, tid, Unlocking, if pc.Spawning? then Some(Running) else None)
  {
    hide Keeps;
    hide Uploadable;
    var t := s.threads[tid];
    var c := if pc.Putting? then Fail else Go;
    var e := if pc.Putting? then Move(t, Unlocking).(event := Some(EvInnerPut(false)))
             else Move(t, Unlocking).(event := Some(EvAccepted), spawn := Some(PutPayload(cfg, t.entry)));
    BusyThread(cfg, s, s0.remote, tid, pc, c, e);
    ThreadAfter(cfg, s, tid, e);
    HiddenMove(cfg, s, tid, c, e);
    log' := KeepStep(cfg, s0, s, ks, log, ThreadL(tid, c));
    u := Commit(cfg, s, tid, e);
  }

  /** The upload runs to its end at once. */
  lemma UploadFails(cfg: Config, s0: State, s: State, ks: seq<Label>, log: seq<Event>, tid: Tid, job: JobPc)
      returns (u: State, log': seq<Event>)
    requires Uploadable(cfg, s0.procs) && Keeps(cfg, s0, s, ks, log)
    requires Busy(cfg, s, s0.remote, tid, Unlocking, Some(job))
    ensures Keeps(cfg, s0, u, ks, log') && Busy(cfg, u, s0.remote, tid, Unlocking, None)
    decreases match job case Running => 4 case Counting(_) => 3 case Releasing => 2 case Finishing => 1
  {
    hide Keeps;
    hide Uploadable;
    var l := BusyJob(cfg, s, s0.remote, tid, Unlocking, job);
    assert Shown(cfg, s, l).None?;
    u := Step(cfg, s, l).value;
    assert u.remote == s.remote;
    log' := KeepStep(cfg, s0, s, ks, log, l);
    hide Step;
    hide Busy;
    match job
    case Running => u, log' := UploadFails(cfg, s0, u, ks, log', tid, Counting(false));
    case Counting(_) => u, log' := UploadFails(cfg, s0, u, ks, log', tid, Releasing);
    case Releasing => u, log' := UploadFails(cfg, s0, u, ks, log', tid, Finishing);
    case Finishing =>
  }

  lemma DecisionIsBusy(cfg: Config, s: State, before: map<ActionID, Record>, log: seq<Event>, tid: Tid, c: Choice)
    requires Base(cfg, s) && Plain(s, before) && tid in s.threads && s.threads[tid].pc.Deciding?
    requires StepThread(Twin(cfg), Erased(s, before, log), tid, c).Some?
    ensures c == Go && Busy(cfg, s, before, tid, Deciding, None)
  {
    assert PcOk(cfg, s.threads[tid]) && ThreadOwned(s.procs[tid.pid], tid.index, s.threads[tid]);
    hide Base;
    TwinSees(cfg, s, before, log, tid, c);
    DecisionIsGo(cfg, s.threads[tid], At(s.files, s.threads[tid].req.actionID), Get(before,
        s.threads[tid].req.actionID), c);
    hide Advance;
  }

  lemma DecisionIsGo(cfg: Config, t: Thread, v: View, rem: Option<Record>, c: Choice)
    requires t.pc.Deciding? && Advance(Twin(cfg), Erase(t), v, rem, false, c).Some?
    ensures c == Go
  {
  }

  /** The full server follows one action of the read-only server. */
  lemma Follow(cfg: Config, s0: State, s: State, ks: seq<Label>, log: seq<Event>, k: Label)
      returns (u: State, log': seq<Event>)
    requires Uploadable(cfg, s0.procs) && Keeps(cfg, s0, s, ks, log) && Plain(s, s0.remote)
    requires Step(Twin(cfg), Erased(s, s0.remote, log), k).Some?
    ensures Keeps(cfg, s0, u, ks + [k], log') && Plain(u, s0.remote)
  {
    assert Base(cfg, s) && Settled(cfg, s0, s);
    if Ordinary(cfg, s, k) {
      OrdinaryStep(cfg, s, s0.remote, log, k);
      u := Step(cfg, s, k).value;
      hide Keeps;
      log' := KeepStep(cfg, s0, s, ks, log, k);
    } else {
      DecisionIsBusy(cfg, s, s0.remote, log, k.tid, k.c);
      DecidersCompress(cfg, s0, s, k.tid);
      hide Keeps;
      hide Step;
      hide Uploadable;
      hide Plain;
      hide Base;
      hide Settled;
      u, log' := UploadHidden(cfg, s0, s, ks, log, k.tid);
      if !Busy(cfg, u, s0.remote, k.tid, Unlocking, None) {
        u, log' := UploadFails(cfg, s0, u, ks + [k], log', k.tid, Running);
      }
      BusyIsPlain(cfg, u, s0.remote, k.tid);
    }
  }

  lemma RunButLast(cfg: Config, s: State, ks: seq<Label>)
    requires ks != [] && Run(cfg, s, ks).Some?
    ensures Run(cfg, s, ks[..|ks| - 1]).Some?
    ensures Step(cfg, Run(cfg, s, ks[..|ks| - 1]).value, ks[|ks| - 1]) == Run(cfg, s, ks)
    decreases |ks|
  {
    hide Step;
    if |ks| == 1 {
      assert ks[..0] == [] && ks[1..] == [];
    } else {
      assert ks[..|ks| - 1][1..] == ks[1..][..|ks| - 2];
      RunButLast(cfg, Step(cfg, s, ks[0]).value, ks[1..]);
    }
  }

  lemma KeepsNothing(cfg: Config, s0: State)
    requires Init(cfg, s0)
    ensures Keeps(cfg, s0, s0, [], []) && Plain(s0, s0.remote)
  {
    InitSourced(cfg, s0);
    InitIsBlank(cfg, s0);
    assert Run(cfg, s0, []) == Some(s0) && ShownRun(cfg, s0, []) == [];
    forall pid | pid in s0.procs ensures s0.procs[pid].tokens == 0 && s0.procs[pid].wg == 0 {
      assert FreshProc(s0.procs[pid]);
    }
  }

  lemma {:induction false} FollowAll(cfg: Config, s0: State, ks: seq<Label>) returns (s: State, log: seq<Event>)
    requires Init(cfg, s0) && Uploadable(cfg, s0.procs) && Run(Twin(cfg), s0, ks).Some?
    ensures Keeps(cfg, s0, s, ks, log) && Plain(s, s0.remote)
    decreases |ks|
  {
    if ks == [] {
      s, log := s0, [];
      KeepsNothing(cfg, s0);
    } else {
      var n := |ks| - 1;
      RunButLast(Twin(cfg), s0, ks);
      assert ks[..n] + [ks[n]] == ks;
      var r, l := FollowAll(cfg, s0, ks[..n]);
      TrackedTwin(cfg, s0, r, ks[..n], l);
      hide *;
      s, log := Follow(cfg, s0, r, ks[..n], l, ks[n]);
    }
  }

  lemma TrackedTwin(cfg: Config, s0: State, s: State, ks: seq<Label>, log: seq<Event>)
    requires Keeps(cfg, s0, s, ks, log)
    ensures Run(Twin(cfg), s0, ks) == Some(Erased(s, s0.remote, log))
  {
    hide Settled;
  }

  /**
    For every run of the read-only server and every mode there is a run of the server in that mode that shows as it,
    with the same files and the same answers.
   */
  lemma ReadOnlyRunsAreShown(cfg: Config, s0: State, ks: seq<Label>) returns (ls: seq<Label>)
    requires Init(cfg, s0) && Uploadable(cfg, s0.procs) && Run(Twin(cfg), s0, ks).Some?
    ensures Run(cfg, s0, ls).Some? && ShownRun(cfg, s0, ls) == ks
    ensures var s := Run(cfg, s0, ls).value; var r := Run(Twin(cfg), s0, ks).value;
      && s.files == r.files && s.procs.Keys == r.procs.Keys
      && forall pid :: pid in s.procs ==> s.procs[pid].out == r.procs[pid].out
  {
    var s, log := FollowAll(cfg, s0, ks);
    ls :| Run(cfg, s0, ls) == Some(s) && ShownRun(cfg, s0, ls) == ks;
    TrackedTwin(cfg, s0, s, ks, log);
    hide Run;
    hide ShownRun;
    hide EraseThreads;
    hide Settled;
  }
}
