/**
  Where carried entries, uploads and remote objects come from, in every run of every configuration: each is the whole
  of what one PUT stores or one remote object fills in.
 */
module Sources {
  import opened Basics
  import opened Disk
  import opened Protocol
  import opened Exclusion
  import opened Safety

  // ---------------------------------------------------------------- invariant

  /** The entry a handler is about to install comes from one write. */
  ghost predicate Carries(cfg: Config, s0: State, t: Thread) {
    HasEntry(t.pc) ==>
      if t.req.cmd == CmdPut then PutOf(s0.procs, t.req.actionID, t.entry) else FillOf(cfg, s0, t.req.actionID, t.entry)
  }

  ghost predicate ThreadsCarry(cfg: Config, s0: State, threads: Threads) {
    forall tid :: tid in threads ==> Carries(cfg, s0, threads[tid])
  }

  ghost predicate JobsFrom(cfg: Config, s0: State, jobs: map<Tid, Job>) {
    forall tid :: tid in jobs ==> PayloadOf(cfg, s0.procs, jobs[tid].id, jobs[tid].payload)
  }

  ghost predicate RemotesFrom(cfg: Config, s0: State, remote: map<ActionID, Record>) {
    forall id :: id in remote ==> RemoteFrom(cfg, s0, id, remote[id])
  }

  ghost predicate Sourced(cfg: Config, s0: State, s: State) {
    && SameInputs(s0.procs, s.procs) && ThreadsCarry(cfg, s0, s.threads) && JobsFrom(cfg, s0, s.jobs)
    && RemotesFrom(cfg, s0, s.remote)
  }

  // ---------------------------------------------------------------- one handler action

  /** A PUT takes its body, a GET the remote object. */
  predicate Takes(cfg: Config, r: Request, rem: Option<Record>, e: Entry) {
    if r.cmd == CmdPut then StoresBody(r, e) else rem.Some? && FillsIn(cfg, rem.value, e)
  }

  /** What an action may leave for its handler to carry, send and store. */
  predicate Handed(cfg: Config, t: Thread, rem: Option<Record>, e: Effect) {
    && e.t.req == t.req
    && (HasEntry(e.t.pc) ==> (HasEntry(t.pc) && e.t.entry == t.entry) || Takes(cfg, t.req, rem, e.t.entry))
    && (e.spawn.Some? || e.store.Some? ==> HasEntry(t.pc) && t.req.cmd == CmdPut && CanUpload(cfg, t.entry))
    && (e.spawn.Some? ==> e.spawn.value == PutPayload(cfg, t.entry))
    && (e.store.Some? ==> e.store.value == RecordOf(PutPayload(cfg, t.entry), e.store.value.time))
  }

  lemma LookupHands(cfg: Config, t: Thread, v: View, rem: Option<Record>, c: Choice)
    requires LooksUp(t.pc) && PcOk(cfg, t) && Lookup(cfg, t, v, rem, c).Some?
    ensures Handed(cfg, t, rem, Lookup(cfg, t, v, rem, c).value)
  {
  }

  lemma WritesHand(cfg: Config, t: Thread, rem: Option<Record>, c: Choice)
    ensures WritesData(t.pc) && WriteData(t, c).Some? ==> Handed(cfg, t, rem, WriteData(t, c).value)
    ensures WritesMeta(t.pc) && WriteMeta(cfg, t, c).Some? ==> Handed(cfg, t, rem, WriteMeta(cfg, t, c).value)
  {
  }

  lemma FinishHands(cfg: Config, t: Thread, rem: Option<Record>, full: bool, c: Choice)
    requires PcOk(cfg, t) && Finish(cfg, t, full, c).Some?
    ensures Handed(cfg, t, rem, Finish(cfg, t, full, c).value)
  {
  }

  lemma AdvanceHands(cfg: Config, t: Thread, v: View, rem: Option<Record>, full: bool, c: Choice)
    requires PcOk(cfg, t) && Advance(cfg, t, v, rem, full, c).Some?
    ensures Handed(cfg, t, rem, Advance(cfg, t, v, rem, full, c).value)
  {
    hide Handed;
    if LooksUp(t.pc) {
      LookupHands(cfg, t, v, rem, c);
    } else if WritesData(t.pc) || WritesMeta(t.pc) {
      WritesHand(cfg, t, rem, c);
    } else {
      FinishHands(cfg, t, rem, full, c);
    }
  }

  /** The request a handler works on is one of its process's. */
  lemma HandlerPuts(s0: State, s: State, tid: Tid, e: Entry)
    requires Owned(s.threads, s.procs) && SameInputs(s0.procs, s.procs) && tid in s.threads
    requires s.threads[tid].req.cmd == CmdPut && StoresBody(s.threads[tid].req, e)
    ensures PutOf(s0.procs, s.threads[tid].req.actionID, e)
  {
    assert ThreadOwned(s.procs[tid.pid], tid.index, s.threads[tid]);
    assert PutsEntry(s0.procs[tid.pid].input[tid.index], s.threads[tid].req.actionID, e);
  }

  /** The handler that moved carries what one write made. */
  lemma MoverCarries(cfg: Config, s0: State, s: State, tid: Tid, e: Effect)
    requires Owned(s.threads, s.procs) && Sourced(cfg, s0, s) && tid in s.threads
    requires Handed(cfg, s.threads[tid], Get(s.remote, s.threads[tid].req.actionID), e)
    ensures Carries(cfg, s0, e.t)
  {
    var id := s.threads[tid].req.actionID;
    assert Carries(cfg, s0, s.threads[tid]);
    assert id in s.remote ==> RemoteFrom(cfg, s0, id, s.remote[id]);
    if e.t.req.cmd == CmdPut && StoresBody(e.t.req, e.t.entry) {
      HandlerPuts(s0, s, tid, e.t.entry);
    }
    hide PutOf;
    hide RemoteFrom;
  }

  /** Uploads come from the PUT that its handler carries. */
  lemma MoverUploads(cfg: Config, s0: State, s: State, tid: Tid, e: Effect)
    requires ThreadsCarry(cfg, s0, s.threads) && JobsFrom(cfg, s0, s.jobs) && RemotesFrom(cfg, s0, s.remote)
    requires tid in s.threads && tid.pid in s.procs
    requires Handed(cfg, s.threads[tid], Get(s.remote, s.threads[tid].req.actionID), e)
    ensures JobsFrom(cfg, s0, Commit(cfg, s, tid, e).jobs) && RemotesFrom(cfg, s0, Commit(cfg, s, tid, e).remote)
  {
    var t := s.threads[tid];
    assert Carries(cfg, s0, t);
    if e.spawn.Some? || e.store.Some? {
      PayloadIsSent(cfg, t.entry);
      assert PayloadOf(cfg, s0.procs, t.req.actionID, PutPayload(cfg, t.entry));
    }
    hide PayloadOf;
    hide PutOf;
    hide PutPayload;
    hide Relock;
    hide AfterMove;
  }

  lemma CommitSourced(cfg: Config, s0: State, s: State, tid: Tid, e: Effect)
    requires Sourced(cfg, s0, s) && tid in s.threads && tid.pid in s.procs && Carries(cfg, s0, e.t)
    requires SameInputs(s.procs, Commit(cfg, s, tid, e).procs)
    requires JobsFrom(cfg, s0, Commit(cfg, s, tid, e).jobs) && RemotesFrom(cfg, s0, Commit(cfg, s, tid, e).remote)
    ensures Sourced(cfg, s0, Commit(cfg, s, tid, e))
  {
    hide Carries;
    hide JobsFrom;
    hide RemotesFrom;
    hide AfterMove;
    hide Relock;
  }

  lemma EffectHanded(cfg: Config, s: State, tid: Tid, c: Choice, e: Effect)
    requires Base(cfg, s) && tid in s.threads && EffectOf(cfg, s, tid, c) == Some(e)
    ensures Handed(cfg, s.threads[tid], Get(s.remote, s.threads[tid].req.actionID), e)
  {
    var t := s.threads[tid];
    var id := t.req.actionID;
    assert PcOk(cfg, t);
    hide Handed;
    AdvanceHands(cfg, t, At(s.files, id), Get(s.remote, id), Full(cfg, s.procs[tid.pid]), c);
  }

  lemma ThreadSourced(cfg: Config, s0: State, s: State, tid: Tid, c: Choice)
    requires Base(cfg, s) && Sourced(cfg, s0, s) && StepThread(cfg, s, tid, c).Some?
    ensures Sourced(cfg, s0, StepThread(cfg, s, tid, c).value)
  {
    var e := EffectOf(cfg, s, tid, c).value;
    ThreadKeepsInputs(cfg, s, tid, c);
    EffectHanded(cfg, s, tid, c, e);
    assert Owned(s.threads, s.procs);
    hide Base;
    hide EffectOf;
    hide Owned;
    hide Handed;
    MoverCarries(cfg, s0, s, tid, e);
    hide Carries;
    hide JobsFrom;
    hide RemotesFrom;
    hide ThreadsCarry;
    MoverUploads(cfg, s0, s, tid, e);
    hide Commit;
    hide SameInputs;
    CommitSourced(cfg, s0, s, tid, e);
  }

  // ---------------------------------------------------------------- the other actions

  lemma JobStores(cfg: Config, s0: State, remote: map<ActionID, Record>, j: Job, now: int64)
    requires RemotesFrom(cfg, s0, remote) && PayloadOf(cfg, s0.procs, j.id, j.payload)
    ensures RemotesFrom(cfg, s0, remote[j.id := RecordOf(j.payload, now)])
  {
    hide PayloadOf;
  }

  lemma JobMovesOn(cfg: Config, s0: State, jobs: map<Tid, Job>, tid: Tid, pc: JobPc)
    requires JobsFrom(cfg, s0, jobs) && tid in jobs
    ensures JobsFrom(cfg, s0, jobs[tid := jobs[tid].(pc := pc)]) && JobsFrom(cfg, s0, jobs - {tid})
  {
    hide PayloadOf;
  }

  lemma JobEffectFrom(cfg: Config, s0: State, s: State, tid: Tid, c: Choice, e: JobEffect)
    requires JobsFrom(cfg, s0, s.jobs) && RemotesFrom(cfg, s0, s.remote)
    requires tid in s.jobs && tid.pid in s.procs && AdvanceJob(s.jobs[tid], s.procs[tid.pid], tid, c) == Some(e)
    ensures JobsFrom(cfg, s0, CommitJob(s, tid, e).jobs) && RemotesFrom(cfg, s0, CommitJob(s, tid, e).remote)
  {
    var j := s.jobs[tid];
    assert e.store.Some? ==> e.store.value == RecordOf(j.payload, e.store.value.time);
    hide AdvanceJob;
    hide RemotesFrom;
    if e.store.Some? {
      JobStores(cfg, s0, s.remote, j, e.store.value.time);
    }
    hide RecordOf;
    hide JobsFrom;
    JobMovesOn(cfg, s0, s.jobs, tid, if e.pc.Some? then e.pc.value else j.pc);
  }

  lemma JobSourced(cfg: Config, s0: State, s: State, tid: Tid, c: Choice)
    requires Sourced(cfg, s0, s) && StepJob(s, tid, c).Some?
    ensures Sourced(cfg, s0, StepJob(s, tid, c).value)
  {
    var e := AdvanceJob(s.jobs[tid], s.procs[tid.pid], tid, c).value;
    var u := CommitJob(s, tid, e);
    StepKeepsInputs(cfg, s, JobL(tid, c));
    assert Step(cfg, s, JobL(tid, c)) == Some(u);
    hide Step;
    hide ThreadsCarry;
    hide RemotesFrom;
    hide JobsFrom;
    hide SameInputs;
    hide AdvanceJob;
    JobEffectFrom(cfg, s0, s, tid, c, e);
    SameInputsThrough(s0.procs, s.procs, u.procs);
  }

  lemma SameInputsThrough(a: Procs, b: Procs, c: Procs)
    requires SameInputs(a, b) && SameInputs(b, c)
    ensures SameInputs(a, c)
  {
  }

  lemma ProcSourced(cfg: Config, s0: State, s: State, pid: nat)
    requires Sourced(cfg, s0, s) && StepProc(s, pid).Some?
    ensures Sourced(cfg, s0, StepProc(s, pid).value)
  {
    StepKeepsInputs(cfg, s, ProcL(pid));
    var e := AdvanceProc(s.procs[pid], pid, Idle(s.threads, pid)).value;
    assert e.spawn.Some? ==> Carries(cfg, s0, e.spawn.value);
    hide AdvanceProc;
    hide PayloadOf;
    hide Carries;
    hide RemoteFrom;
  }

  lemma KillSourced(cfg: Config, s0: State, s: State, pid: nat)
    requires Sourced(cfg, s0, s) && StepKill(s, pid).Some?
    ensures Sourced(cfg, s0, StepKill(s, pid).value)
  {
    StepKeepsInputs(cfg, s, KillL(pid));
    hide PayloadOf;
    hide Carries;
    hide RemoteFrom;
  }

  lemma StepSourced(cfg: Config, s0: State, s: State, l: Label)
    requires Base(cfg, s) && Sourced(cfg, s0, s) && Step(cfg, s, l).Some?
    ensures Sourced(cfg, s0, Step(cfg, s, l).value)
  {
    hide Base;
    hide Sourced;
    match l
    case ThreadL(tid, c) => ThreadSourced(cfg, s0, s, tid, c);
    case JobL(tid, c) => JobSourced(cfg, s0, s, tid, c);
    case ProcL(pid) => ProcSourced(cfg, s0, s, pid);
    case KillL(pid) => KillSourced(cfg, s0, s, pid);
  }

  lemma {:induction false} RunSourced(cfg: Config, s0: State, s: State, ls: seq<Label>)
    requires Base(cfg, s) && Sourced(cfg, s0, s) && Run(cfg, s, ls).Some?
    ensures Sourced(cfg, s0, Run(cfg, s, ls).value)
    decreases |ls|
  {
    hide Base;
    hide Sourced;
    hide Step;
    if ls != [] {
      StepSourced(cfg, s0, s, ls[0]);
      StepKeepsBase(cfg, s, ls[0]);
      RunSourced(cfg, s0, Step(cfg, s, ls[0]).value, ls[1..]);
    }
  }

  lemma InitSourced(cfg: Config, s0: State)
    requires Init(cfg, s0)
    ensures Sourced(cfg, s0, s0) && Base(cfg, s0)
  {
  }

  /** Every remote object, in every run, was there at the start or is the upload of one PUT. */
  lemma RemotesAreWhole(cfg: Config, s0: State, ls: seq<Label>, id: ActionID)
    requires Init(cfg, s0) && Run(cfg, s0, ls).Some? && id in Run(cfg, s0, ls).value.remote
    ensures RemoteFrom(cfg, s0, id, Run(cfg, s0, ls).value.remote[id])
  {
    InitSourced(cfg, s0);
    RunSourced(cfg, s0, s0, ls);
    hide RemoteFrom;
    hide Run;
  }

  /**
    A PUT that found nothing takes its body, whole and unchanged, with the time the clock shows; it fails exactly when
    the body is shorter than promised.
   */
  lemma BodyIsTaken(cfg: Config, t: Thread, v: View, rem: Option<Record>, full: bool, now: int64)
    requires t.pc.ReadingBody?
    ensures var e := Advance(cfg, t, v, rem, full, Clock(now));
      && e.Some? && e.value.op.Nop? && e.value.event.None? && e.value.spawn.None? && e.value.store.None?
      && if ShortBody(t.req) then e.value.t == t.(pc := Unlocking, result := Failed(BodyShort))
         else e.value.t == t.(pc := Creating, entry := e.value.t.entry)
              && StoresBody(t.req, e.value.t.entry) && e.value.t.entry.time == now
  {
  }

  // ---------------------------------------------------------------- sizes

  /** What a PUT stores has the size it states. */
  lemma PutFits(r: Request, e: Entry)
    requires Framed(r) && r.cmd == CmdPut && StoresBody(r, e)
    ensures Fits(e.size, e.bytes)
  {
  }

  /** Downloading an upload gives the entry back, with the remote object's time. */
  lemma FillInvertsUpload(cfg: Config, e: Entry, rec: Record)
    requires Lossless(cfg) && Fits(e.size, e.bytes) && Sends(cfg, e, Sent(rec))
    ensures FillEntry(cfg, rec) == Some(e.(time := rec.time)) && FillsIn(cfg, rec, e.(time := rec.time))
  {
  }

  /** Whatever an upload fills in has the size it states, lossless or not. */
  lemma UploadFillFits(cfg: Config, e: Entry, rec: Record, f: Entry)
    requires Fits(e.size, e.bytes) && Sends(cfg, e, Sent(rec)) && FillsIn(cfg, rec, f)
    ensures Fits(f.size, f.bytes)
  {
  }

  lemma PutOfFits(cfg: Config, s0: State, id: ActionID, e: Entry)
    requires Init(cfg, s0) && PutOf(s0.procs, id, e)
    ensures Fits(e.size, e.bytes)
  {
    var pid, i :| pid in s0.procs && 0 <= i < |s0.procs[pid].input| && PutsEntry(s0.procs[pid].input[i], id, e);
    assert FreshProc(s0.procs[pid]);
    PutFits(s0.procs[pid].input[i], e);
  }

  lemma FillOfFits(cfg: Config, s0: State, id: ActionID, e: Entry)
    requires Init(cfg, s0) && FillsFit(cfg, s0.remote) && id != [] && e.outputID != [] && FillOf(cfg, s0, id, e)
    ensures Fits(e.size, e.bytes)
  {
    var rec :| RemoteFrom(cfg, s0, id, rec) && FillsIn(cfg, rec, e);
    if Get(s0.remote, id) != Some(rec) {
      var put :| PutOf(s0.procs, id, put) && Sends(cfg, put, Sent(rec));
      PutOfFits(cfg, s0, id, put);
      UploadFillFits(cfg, put, rec, e);
    }
  }

  lemma RemotesStayFit(cfg: Config, s0: State, remote: map<ActionID, Record>)
    requires Init(cfg, s0) && FillsFit(cfg, s0.remote) && RemotesFrom(cfg, s0, remote)
    ensures FillsFit(cfg, remote)
  {
    forall id, e: Entry | id in remote && id != [] && e.outputID != [] && FillsIn(cfg, remote[id], e)
      ensures Fits(e.size, e.bytes)
    {
      assert FillOf(cfg, s0, id, e);
      FillOfFits(cfg, s0, id, e);
    }
  }
}
