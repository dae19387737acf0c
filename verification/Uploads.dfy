/** The Backend contract: over the life of a cache directory each action ID is handed to the backend at most once. */
module Uploads {
  import opened Basics
  import opened Disk
  import opened Protocol
  import opened Exclusion
  import opened Safety

  /** Metadata writes succeed, reads succeed, and every output ID is non-empty. */
  predicate Reliable(cfg: Config) {
    !cfg.metaMayFail && !cfg.readMayFail
  }

  predicate Named(procs: Procs, remote: map<ActionID, Record>) {
    && (forall pid, i :: pid in procs && 0 <= i < |procs[pid].input| && procs[pid].input[i].cmd == CmdPut ==>
          procs[pid].input[i].outputID != [])
    && (forall id :: id in remote ==> remote[id].outputID != [])
  }

  predicate HasIssued(log: seq<Event>, id: ActionID) {
    exists i :: 0 <= i < |log| && log[i].Issued? && log[i].id == id
  }

  predicate IssuedBy(log: seq<Event>, tid: Tid, id: ActionID) {
    exists i :: 0 <= i < |log| && log[i] == Issued(tid, id)
  }

  predicate IssuedOnce(log: seq<Event>) {
    forall i, j :: 0 <= i < j < |log| && log[i].Issued? && log[j].Issued? ==> log[i].id != log[j].id
  }

  /** Between its metadata rename and its call of the backend. */
  predicate BeforeCall(pc: Pc) {
    pc.Deciding? || pc.PutCalling?
  }

  predicate AfterCall(pc: Pc) {
    pc.Putting? || pc.Spawning?
  }

  predicate ThreadNamed(cfg: Config, t: Thread, v: View, log: seq<Event>) {
    && (t.req.cmd == CmdPut ==> t.req.outputID != [])
    && (HasEntry(t.pc) ==> t.entry.outputID != [])
    && (BeforeCall(t.pc) ==> LocalEntry(cfg, v).Some? && !HasIssued(log, t.req.actionID))
  }

  ghost predicate IssuedAreReadable(cfg: Config, files: Files, log: seq<Event>) {
    forall id :: HasIssued(log, id) ==> LocalEntry(cfg, At(files, id)).Some?
  }

  predicate ThreadsLogged(threads: Threads, log: seq<Event>) {
    forall tid :: tid in threads && AfterCall(threads[tid].pc) ==> IssuedBy(log, tid, threads[tid].req.actionID)
  }

  predicate JobsLogged(jobs: map<Tid, Job>, log: seq<Event>) {
    forall tid :: tid in jobs ==> IssuedBy(log, tid, jobs[tid].id) && jobs[tid].payload.outputID != []
  }

  predicate ThreadsNamed(cfg: Config, files: Files, threads: Threads, log: seq<Event>) {
    forall tid :: tid in threads ==> ThreadNamed(cfg, threads[tid], At(files, threads[tid].req.actionID), log)
  }

  ghost predicate UpInv(cfg: Config, s: State) {
    && Inv(cfg, s) && Named(s.procs, s.remote) && IssuedOnce(s.log) && IssuedAreReadable(cfg, s.files, s.log)
    && ThreadsNamed(cfg, s.files, s.threads, s.log)
    && ThreadsLogged(s.threads, s.log) && JobsLogged(s.jobs, s.log)
  }

  lemma LogGrows(log: seq<Event>, ev: Event, id: ActionID)
    ensures HasIssued(log + [ev], id) <==> HasIssued(log, id) || (ev.Issued? && ev.id == id)
    ensures forall tid :: IssuedBy(log, tid, id) ==> IssuedBy(log + [ev], tid, id)
    ensures ev.Issued? && ev.id == id ==> IssuedBy(log + [ev], ev.tid, id)
  {
    var l := log + [ev];
    assert l[|log|] == ev;
    forall i | 0 <= i < |log| ensures l[i] == log[i] {}
    if HasIssued(log, id) {
      var i :| 0 <= i < |log| && log[i].Issued? && log[i].id == id;
      assert l[i].Issued? && l[i].id == id;
    }
    forall tid | IssuedBy(log, tid, id) ensures IssuedBy(l, tid, id) {
      var i :| 0 <= i < |log| && log[i] == Issued(tid, id);
      assert l[i] == Issued(tid, id);
    }
  }

  /** What one action means for the calls of the backend. */
  predicate CallEffect(cfg: Config, t: Thread, v: View, e: Effect) {
    var w := ApplyView(v, e.op);
    && (HasEntry(e.t.pc) ==> e.t.entry.outputID != [])
    && (e.event.Some? && e.event.value.EvIssued? ==> t.pc.PutCalling?)
    && (t.pc.PutCalling? ==> !BeforeCall(e.t.pc) && e.event.Some? && e.event.value.EvIssued?)
    && (BeforeCall(e.t.pc) ==> (BeforeCall(t.pc) || Writing(t.pc)) && LocalEntry(cfg, w).Some?)
    && (AfterCall(e.t.pc) ==> t.pc.PutCalling?)
    && (e.spawn.Some? ==> AfterCall(t.pc) && e.spawn.value.outputID != [])
    && (e.store.Some? ==> e.store.value.outputID != [])
  }

  lemma LookupCalls(cfg: Config, t: Thread, v: View, rem: Option<Record>, c: Choice)
    requires LooksUp(t.pc) && PcOk(cfg, t) && (t.req.cmd == CmdPut ==> t.req.outputID != [])
    requires (rem.Some? ==> rem.value.outputID != []) && Lookup(cfg, t, v, rem, c).Some?
    ensures CallEffect(cfg, t, v, Lookup(cfg, t, v, rem, c).value)
  {
  }

  lemma WriteDataCalls(cfg: Config, t: Thread, v: View, c: Choice)
    requires WritesData(t.pc) && t.entry.outputID != [] && WriteData(t, c).Some?
    ensures CallEffect(cfg, t, v, WriteData(t, c).value)
  {
  }

  lemma WriteMetaCalls(cfg: Config, t: Thread, v: View, c: Choice)
    requires Sound(cfg) && Reliable(cfg) && PcOk(cfg, t) && ThreadOk(cfg, t, v)
    requires WritesMeta(t.pc) && t.entry.outputID != [] && WriteMeta(cfg, t, c).Some?
    ensures CallEffect(cfg, t, v, WriteMeta(cfg, t, c).value)
  {
  }

  lemma FinishCalls(cfg: Config, t: Thread, v: View, full: bool, c: Choice)
    requires (HasEntry(t.pc) ==> t.entry.outputID != []) && (BeforeCall(t.pc) ==> LocalEntry(cfg, v).Some?)
    requires Finish(cfg, t, full, c).Some?
    ensures CallEffect(cfg, t, v, Finish(cfg, t, full, c).value)
  {
  }

  lemma AdvanceCalls(cfg: Config, t: Thread, v: View, rem: Option<Record>, full: bool, c: Choice, log: seq<Event>)
    requires Sound(cfg) && Reliable(cfg) && PcOk(cfg, t) && ThreadOk(cfg, t, v) && ThreadNamed(cfg, t, v, log)
    requires rem.Some? ==> rem.value.outputID != []
    requires Advance(cfg, t, v, rem, full, c).Some?
    ensures CallEffect(cfg, t, v, Advance(cfg, t, v, rem, full, c).value)
  {
    if LooksUp(t.pc) {
      LookupCalls(cfg, t, v, rem, c);
    } else if WritesData(t.pc) {
      WriteDataCalls(cfg, t, v, c);
    } else if WritesMeta(t.pc) {
      WriteMetaCalls(cfg, t, v, c);
    } else {
      FinishCalls(cfg, t, v, full, c);
    }
  }

  function LogAfter(log: seq<Event>, tid: Tid, id: ActionID, e: Effect): seq<Event> {
    if e.event.Some? then log + [EventOf(e.event.value, tid, id)] else log
  }

  predicate Issues(e: Effect) {
    e.event.Some? && e.event.value.EvIssued?
  }

  /** The log gains a call for `id` exactly when the action makes one. */
  lemma IssuedAfter(log: seq<Event>, tid: Tid, id: ActionID, e: Effect, x: ActionID)
    ensures HasIssued(LogAfter(log, tid, id, e), x) <==> HasIssued(log, x) || (Issues(e) && x == id)
    ensures forall y :: IssuedBy(log, y, x) ==> IssuedBy(LogAfter(log, tid, id, e), y, x)
    ensures Issues(e) ==> IssuedBy(LogAfter(log, tid, id, e), tid, id)
  {
    if e.event.Some? {
      LogGrows(log, EventOf(e.event.value, tid, id), x);
      LogGrows(log, EventOf(e.event.value, tid, id), id);
    }
  }

  lemma OnceAfter(log: seq<Event>, tid: Tid, id: ActionID, e: Effect)
    requires IssuedOnce(log) && (Issues(e) ==> !HasIssued(log, id))
    ensures IssuedOnce(LogAfter(log, tid, id, e))
  {
  }

  lemma ReadableAfter(cfg: Config, f: Files, g: Files, log: seq<Event>, tid: Tid, id: ActionID, e: Effect)
    requires IssuedAreReadable(cfg, f, log) && Grows(cfg, f, g) && (Issues(e) ==> LocalEntry(cfg, At(f, id)).Some?)
    ensures IssuedAreReadable(cfg, g, LogAfter(log, tid, id, e))
  {
    forall x | HasIssued(LogAfter(log, tid, id, e), x)
      ensures LocalEntry(cfg, At(g, x)).Some?
    {
      IssuedAfter(log, tid, id, e, x);
      assert Keeps(cfg, At(f, x), At(g, x));
    }
  }

  /** The handler that moves is still entitled to its call, or has made it. */
  lemma MoverNamed(cfg: Config, s: State, tid: Tid, e: Effect)
    requires UpInv(cfg, s) && tid in s.threads && Moves(cfg, s.threads[tid], e)
    requires CallEffect(cfg, s.threads[tid], At(s.files, s.threads[tid].req.actionID), e)
    ensures var id := s.threads[tid].req.actionID;
      ThreadNamed(cfg, e.t, ApplyView(At(s.files, id), e.op), LogAfter(s.log, tid, id, e))
  {
    var t := s.threads[tid];
    IssuedAfter(s.log, tid, t.req.actionID, e, t.req.actionID);
    assert ThreadNamed(cfg, t, At(s.files, t.req.actionID), s.log);
    assert ThreadOk(cfg, t, At(s.files, t.req.actionID));
  }

  /** A call by one handler leaves every other handler entitled to its own: their action IDs differ. */
  lemma OtherNamed(cfg: Config, s: State, tid: Tid, e: Effect, x: Tid)
    requires UpInv(cfg, s) && tid in s.threads && x in s.threads && x != tid
    requires CallEffect(cfg, s.threads[tid], At(s.files, s.threads[tid].req.actionID), e)
    requires Grows(cfg, s.files, Updated(s.files, s.threads[tid].req.actionID, e.op))
    ensures var id := s.threads[tid].req.actionID; var y := s.threads[x];
      ThreadNamed(cfg, y, At(Updated(s.files, id, e.op), y.req.actionID), LogAfter(s.log, tid, id, e))
  {
    var id := s.threads[tid].req.actionID;
    var y := s.threads[x];
    IssuedAfter(s.log, tid, id, e, y.req.actionID);
    assert ThreadNamed(cfg, y, At(s.files, y.req.actionID), s.log);
    assert Keeps(cfg, At(s.files, y.req.actionID), At(Updated(s.files, id, e.op), y.req.actionID));
    if Issues(e) && y.req.actionID == id && BeforeCall(y.pc) {
      MutualExclusion(cfg, s, tid, x);
    }
  }

  /** Calls already logged stay logged, and no call is added or removed. */
  ghost predicate LogExtends(l: seq<Event>, m: seq<Event>) {
    forall tid, id :: IssuedBy(l, tid, id) ==> IssuedBy(m, tid, id)
  }

  lemma LogAfterExtends(log: seq<Event>, tid: Tid, id: ActionID, e: Effect)
    ensures LogExtends(log, LogAfter(log, tid, id, e))
  {
    forall y, x | IssuedBy(log, y, x)
      ensures IssuedBy(LogAfter(log, tid, id, e), y, x)
    {
      IssuedAfter(log, tid, id, e, x);
    }
  }

  lemma ThreadsLoggedAfter(cfg: Config, threads: Threads, log: seq<Event>, tid: Tid, e: Effect)
    requires ThreadsLogged(threads, log) && tid in threads && Moves(cfg, threads[tid], e)
    requires AfterCall(e.t.pc) ==> Issues(e)
    ensures var l := LogAfter(log, tid, threads[tid].req.actionID, e);
      ThreadsLogged(threads[tid := e.t], l) && ThreadsLogged(threads - {tid}, l)
  {
    var id := threads[tid].req.actionID;
    LogAfterExtends(log, tid, id, e);
    IssuedAfter(log, tid, id, e, id);
  }

  lemma JobsLoggedAfter(jobs: map<Tid, Job>, log: seq<Event>, tid: Tid, id: ActionID, e: Effect)
    requires JobsLogged(jobs, log)
    requires e.spawn.Some? ==> IssuedBy(log, tid, id) && e.spawn.value.outputID != []
    ensures JobsLogged(if e.spawn.Some? then jobs[tid := Job(id, e.spawn.value, Running)] else jobs, LogAfter(log, tid,
        id, e))
  {
    LogAfterExtends(log, tid, id, e);
  }

  lemma CallsLoggedAfter(cfg: Config, s: State, tid: Tid, e: Effect)
    requires UpInv(cfg, s) && tid in s.threads && Moves(cfg, s.threads[tid], e)
    requires CallEffect(cfg, s.threads[tid], At(s.files, s.threads[tid].req.actionID), e)
    ensures ThreadsLogged(Commit(cfg, s, tid, e).threads, Commit(cfg, s, tid, e).log)
    ensures JobsLogged(Commit(cfg, s, tid, e).jobs, Commit(cfg, s, tid, e).log)
  {
    ThreadsLoggedAfter(cfg, s.threads, s.log, tid, e);
    JobsLoggedAfter(s.jobs, s.log, tid, s.threads[tid].req.actionID, e);
  }

  lemma ThreadsNamedAfter(cfg: Config, s: State, tid: Tid, e: Effect)
    requires UpInv(cfg, s) && tid in s.threads && Moves(cfg, s.threads[tid], e)
    requires CallEffect(cfg, s.threads[tid], At(s.files, s.threads[tid].req.actionID), e)
    requires Grows(cfg, s.files, Updated(s.files, s.threads[tid].req.actionID, e.op))
    ensures var id := s.threads[tid].req.actionID; var g := Updated(s.files, id, e.op);
      var l := LogAfter(s.log, tid, id, e);
      ThreadsNamed(cfg, g, s.threads[tid := e.t], l) && ThreadsNamed(cfg, g, s.threads - {tid}, l)
  {
    var id := s.threads[tid].req.actionID;
    var g := Updated(s.files, id, e.op);
    forall x | x in s.threads && x != tid
      ensures ThreadNamed(cfg, s.threads[x], At(g, s.threads[x].req.actionID), LogAfter(s.log, tid, id, e))
    {
      OtherNamed(cfg, s, tid, e, x);
    }
    MoverNamed(cfg, s, tid, e);
    UpdatedAt(s.files, id, e.op, id);
  }

  lemma NamedAfter(cfg: Config, s: State, tid: Tid, e: Effect)
    requires Named(s.procs, s.remote) && tid in s.threads && tid.pid in s.procs
    requires e.store.Some? ==> e.store.value.outputID != []
    ensures Named(Commit(cfg, s, tid, e).procs, Commit(cfg, s, tid, e).remote)
  {
  }

  lemma CommitKeepsUp(cfg: Config, s: State, tid: Tid, e: Effect)
    requires UpInv(cfg, s) && tid in s.threads && Moves(cfg, s.threads[tid], e)
    requires CallEffect(cfg, s.threads[tid], At(s.files, s.threads[tid].req.actionID), e)
    requires Inv(cfg, Commit(cfg, s, tid, e)) && Grows(cfg, s.files, Commit(cfg, s, tid, e).files)
    ensures UpInv(cfg, Commit(cfg, s, tid, e))
  {
    var id := s.threads[tid].req.actionID;
    assert ThreadNamed(cfg, s.threads[tid], At(s.files, id), s.log);
    OnceAfter(s.log, tid, id, e);
    ReadableAfter(cfg, s.files, Updated(s.files, id, e.op), s.log, tid, id, e);
    CallsLoggedAfter(cfg, s, tid, e);
    ThreadsNamedAfter(cfg, s, tid, e);
    NamedAfter(cfg, s, tid, e);
  }

  /** The same calls are in both logs. */
  ghost predicate SameCalls(l: seq<Event>, m: seq<Event>) {
    && (IssuedOnce(l) ==> IssuedOnce(m))
    && (forall id :: HasIssued(m, id) <==> HasIssued(l, id))
    && LogExtends(l, m)
  }

  lemma QuietEvent(log: seq<Event>, ev: Option<Event>)
    requires ev.Some? ==> !ev.value.Issued?
    ensures SameCalls(log, if ev.Some? then log + [ev.value] else log)
  {
    if ev.Some? {
      forall id ensures HasIssued(log + [ev.value], id) <==> HasIssued(log, id) {
        LogGrows(log, ev.value, id);
      }
      forall tid, id | IssuedBy(log, tid, id) ensures IssuedBy(log + [ev.value], tid, id) {
        LogGrows(log, ev.value, id);
      }
    }
  }

  lemma QuietKeepsThreads(cfg: Config, files: Files, threads: Threads, l: seq<Event>, m: seq<Event>)
    requires SameCalls(l, m) && ThreadsNamed(cfg, files, threads, l) && ThreadsLogged(threads, l)
    requires IssuedAreReadable(cfg, files, l)
    ensures ThreadsNamed(cfg, files, threads, m) && ThreadsLogged(threads, m) && IssuedAreReadable(cfg, files, m)
  {
  }

  lemma JobKeepsUp(cfg: Config, s: State, tid: Tid, e: JobEffect)
    requires UpInv(cfg, s) && tid in s.jobs && tid.pid in s.procs && Inv(cfg, CommitJob(s, tid, e))
    requires (e.event.Some? ==> !e.event.value.Issued?) && e.p.input == s.procs[tid.pid].input
    requires e.store.Some? ==> e.store.value.outputID == s.jobs[tid].payload.outputID
    ensures UpInv(cfg, CommitJob(s, tid, e))
  {
    QuietEvent(s.log, e.event);
    QuietKeepsThreads(cfg, s.files, s.threads, s.log, CommitJob(s, tid, e).log);
  }

  lemma SpawnKeepsThreads(cfg: Config, files: Files, threads: Threads, log: seq<Event>, tid: Tid, r: Request)
    requires ThreadsNamed(cfg, files, threads, log) && ThreadsLogged(threads, log)
    requires (r.cmd == CmdPut ==> r.outputID != [])
    ensures ThreadsNamed(cfg, files, threads[tid := NewThread(r)], log)
    ensures ThreadsLogged(threads[tid := NewThread(r)], log)
  {
  }

  lemma ProcKeepsUp(cfg: Config, s: State, pid: nat, e: ProcEffect)
    requires UpInv(cfg, s) && pid in s.procs && ProcShape(s.procs[pid], Idle(s.threads, pid), e)
    requires (e.event.Some? ==> !e.event.value.Issued? && e.spawn.None?) && Inv(cfg, CommitProc(s, pid, e))
    ensures UpInv(cfg, CommitProc(s, pid, e))
  {
    QuietEvent(s.log, e.event);
    QuietKeepsThreads(cfg, s.files, s.threads, s.log, CommitProc(s, pid, e).log);
    if e.spawn.Some? {
      var p := s.procs[pid];
      SpawnKeepsThreads(cfg, s.files, s.threads, s.log, Tid(pid, p.next), p.input[p.next]);
    }
  }

  lemma KillKeepsUp(cfg: Config, s: State, pid: nat)
    requires UpInv(cfg, s) && StepKill(s, pid).Some? && Inv(cfg, StepKill(s, pid).value)
    ensures UpInv(cfg, StepKill(s, pid).value)
  {
  }

  lemma ThreadKeepsUp(cfg: Config, s: State, tid: Tid, c: Choice)
    requires UpInv(cfg, s) && Sound(cfg) && Reliable(cfg) && StepThread(cfg, s, tid, c).Some?
    requires var u := StepThread(cfg, s, tid, c).value; Inv(cfg, u) && Grows(cfg, s.files, u.files)
    ensures UpInv(cfg, StepThread(cfg, s, tid, c).value)
  {
    var t := s.threads[tid];
    var id := t.req.actionID;
    var e := EffectOf(cfg, s, tid, c).value;
    EffectIsSafe(cfg, s, tid, c, e);
    AdvanceCalls(cfg, t, At(s.files, id), Get(s.remote, id), Full(cfg, s.procs[tid.pid]), c, s.log);
    CommitKeepsUp(cfg, s, tid, e);
  }

  lemma JobStepKeepsUp(cfg: Config, s: State, tid: Tid, c: Choice)
    requires UpInv(cfg, s) && StepJob(s, tid, c).Some? && Inv(cfg, StepJob(s, tid, c).value)
    ensures UpInv(cfg, StepJob(s, tid, c).value)
  {
    JobKeepsUp(cfg, s, tid, AdvanceJob(s.jobs[tid], s.procs[tid.pid], tid, c).value);
  }

  lemma ProcsNeverIssue(p: Proc, pid: nat, idle: bool)
    requires ProcOk(p) && AdvanceProc(p, pid, idle).Some?
    ensures var e := AdvanceProc(p, pid, idle).value;
      ProcShape(p, idle, e) && (e.event.Some? ==> !e.event.value.Issued? && e.spawn.None?)
  {
    AdvanceProcShape(p, pid, idle);
    hide ProcShape;
  }

  lemma ProcStepKeepsUp(cfg: Config, s: State, pid: nat)
    requires UpInv(cfg, s) && StepProc(s, pid).Some? && Inv(cfg, StepProc(s, pid).value)
    ensures UpInv(cfg, StepProc(s, pid).value)
  {
    assert ProcOk(s.procs[pid]);
    hide UpInv;
    hide Inv;
    hide Idle;
    var e := AdvanceProc(s.procs[pid], pid, Idle(s.threads, pid)).value;
    ProcsNeverIssue(s.procs[pid], pid, Idle(s.threads, pid));
    hide AdvanceProc;
    hide ProcShape;
    ProcKeepsUp(cfg, s, pid, e);
  }

  lemma StepKeepsUp(cfg: Config, s: State, l: Label)
    requires UpInv(cfg, s) && Sound(cfg) && Reliable(cfg) && Step(cfg, s, l).Some?
    ensures UpInv(cfg, Step(cfg, s, l).value)
  {
    StepKeepsInv(cfg, s, l);
    match l
    case ThreadL(tid, c) => ThreadKeepsUp(cfg, s, tid, c);
    case JobL(tid, c) => JobStepKeepsUp(cfg, s, tid, c);
    case ProcL(pid) => ProcStepKeepsUp(cfg, s, pid);
    case KillL(pid) => KillKeepsUp(cfg, s, pid);
  }

  lemma {:induction false} RunKeepsUp(cfg: Config, s: State, ls: seq<Label>)
    requires UpInv(cfg, s) && Sound(cfg) && Reliable(cfg) && Run(cfg, s, ls).Some?
    ensures UpInv(cfg, Run(cfg, s, ls).value)
    decreases |ls|
  {
    if ls != [] {
      StepKeepsUp(cfg, s, ls[0]);
      RunKeepsUp(cfg, Step(cfg, s, ls[0]).value, ls[1..]);
    }
  }

  /** A backend Put of `id` is executing. */
  predicate PutInFlight(s: State, tid: Tid, id: ActionID) {
    || (tid in s.threads && s.threads[tid].pc.Putting? && s.threads[tid].req.actionID == id)
    || (tid in s.jobs && s.jobs[tid].pc.Running? && s.jobs[tid].id == id)
  }

  /** A backend Get of `id` is executing. */
  predicate GetInFlight(s: State, tid: Tid, id: ActionID) {
    tid in s.threads && s.threads[tid].pc.Fetching? && s.threads[tid].req.actionID == id
  }

  /**
    Over the life of a cache directory no action ID is handed to the backend twice, by any process; and the backend
    never sees two operations of one kind for one action ID at once, although an upload outlives the lock.
   */
  lemma BackendContract(cfg: Config, s0: State, ls: seq<Label>)
    requires Sound(cfg) && Reliable(cfg) && Init(cfg, s0) && Named(s0.procs, s0.remote) && Run(cfg, s0, ls).Some?
    ensures var s := Run(cfg, s0, ls).value;
      && IssuedOnce(s.log)
      && (forall a, b, id :: PutInFlight(s, a, id) && PutInFlight(s, b, id) ==> a == b)
      && (forall a, b, id :: GetInFlight(s, a, id) && GetInFlight(s, b, id) ==> a == b)
  {
    InitHasInv(cfg, s0);
    RunKeepsUp(cfg, s0, ls);
    var s := Run(cfg, s0, ls).value;
    forall a, b, id | PutInFlight(s, a, id) && PutInFlight(s, b, id)
      ensures a == b
    {
      assert IssuedBy(s.log, a, id) && IssuedBy(s.log, b, id);
      var i :| 0 <= i < |s.log| && s.log[i] == Issued(a, id);
      var j :| 0 <= j < |s.log| && s.log[j] == Issued(b, id);
    }
  }
}
