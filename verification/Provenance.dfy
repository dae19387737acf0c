/** What is in the remote store: whatever a run changed there is the upload of the entry that can be read locally. */
module Provenance {
  import opened Basics
  import opened Disk
  import opened Protocol
  import opened Exclusion
  import opened Safety
  import opened Uploads

  /** A PUT past its local half answers with the entry it wrote. */
  predicate Settled(t: Thread) {
    AtRemote(t.pc) ==> t.result == Stored(Some(t.entry)) && Fits(t.entry.size, t.entry.bytes)
  }

  predicate Fitting(e: Option<Entry>) {
    e.Some? && Fits(e.value.size, e.value.bytes)
  }

  /** The remote object is the upload of the local entry. */
  predicate UploadOf(cfg: Config, v: View, rec: Option<Record>) {
    Fitting(LocalEntry(cfg, v)) && rec.Some? && Sends(cfg, LocalEntry(cfg, v).value, Sent(rec.value))
  }

  predicate JobOf(cfg: Config, v: View, j: Job) {
    Fitting(LocalEntry(cfg, v)) && Sends(cfg, LocalEntry(cfg, v).value, j.payload)
  }

  predicate ThreadsSettled(threads: Threads) {
    forall tid :: tid in threads ==> Settled(threads[tid])
  }

  predicate JobsOf(cfg: Config, files: Files, jobs: map<Tid, Job>) {
    forall tid :: tid in jobs ==> JobOf(cfg, At(files, jobs[tid].id), jobs[tid])
  }

  ghost predicate RemoteOf(cfg: Config, files: Files, remote: map<ActionID, Record>, before: map<ActionID, Record>) {
    forall id :: Get(remote, id) != Get(before, id) ==> UploadOf(cfg, At(files, id), Get(remote, id))
  }

  ghost predicate Traced(cfg: Config, s: State, before: map<ActionID, Record>) {
    && UpInv(cfg, s) && ThreadsSettled(s.threads) && JobsOf(cfg, s.files, s.jobs)
    && RemoteOf(cfg, s.files, s.remote, before)
  }

  predicate TracedEffect(cfg: Config, t: Thread, v: View, e: Effect) {
    && Settled(e.t)
    && (e.spawn.Some? ==> JobOf(cfg, v, Job(t.req.actionID, e.spawn.value, Running)))
    && (e.store.Some? ==> UploadOf(cfg, v, e.store))
  }

  lemma LookupTraced(cfg: Config, t: Thread, v: View, rem: Option<Record>, c: Choice)
    requires LooksUp(t.pc) && Lookup(cfg, t, v, rem, c).Some?
    ensures TracedEffect(cfg, t, v, Lookup(cfg, t, v, rem, c).value)
  {
  }

  lemma WritesTraced(cfg: Config, t: Thread, v: View, c: Choice)
    requires Reliable(cfg) && PcOk(cfg, t) && t.entry.outputID != []
    requires t.req.cmd == CmdPut ==> Fits(t.entry.size, t.entry.bytes)
    ensures WritesData(t.pc) && WriteData(t, c).Some? ==> TracedEffect(cfg, t, v, WriteData(t, c).value)
    ensures WritesMeta(t.pc) && WriteMeta(cfg, t, c).Some? ==> TracedEffect(cfg, t, v, WriteMeta(cfg, t, c).value)
  {
  }

  lemma FinishTraced(cfg: Config, t: Thread, v: View, full: bool, c: Choice)
    requires Settled(t) && (AtRemote(t.pc) ==> LocalEntry(cfg, v) == Some(t.entry)) && Finish(cfg, t, full, c).Some?
    ensures TracedEffect(cfg, t, v, Finish(cfg, t, full, c).value)
  {
  }

  lemma AdvanceTraced(cfg: Config, t: Thread, v: View, rem: Option<Record>, full: bool, c: Choice)
    requires Reliable(cfg) && PcOk(cfg, t) && Settled(t) && (HasEntry(t.pc) ==> t.entry.outputID != [])
    requires AtRemote(t.pc) ==> LocalEntry(cfg, v) == Some(t.entry)
    requires HasEntry(t.pc) && t.req.cmd == CmdPut ==> Fits(t.entry.size, t.entry.bytes)
    requires Advance(cfg, t, v, rem, full, c).Some?
    ensures TracedEffect(cfg, t, v, Advance(cfg, t, v, rem, full, c).value)
  {
    hide TracedEffect;
    if LooksUp(t.pc) {
      LookupTraced(cfg, t, v, rem, c);
    } else if WritesData(t.pc) || WritesMeta(t.pc) {
      WritesTraced(cfg, t, v, c);
    } else {
      FinishTraced(cfg, t, v, full, c);
    }
  }

  /** Entries that can be read stay, so every upload remains the upload of the local entry. */
  lemma GrowsKeepsTrace(cfg: Config, f: Files, g: Files, jobs: map<Tid, Job>, remote: map<ActionID, Record>,
                        before: map<ActionID, Record>)
    requires Grows(cfg, f, g) && JobsOf(cfg, f, jobs) && RemoteOf(cfg, f, remote, before)
    ensures JobsOf(cfg, g, jobs) && RemoteOf(cfg, g, remote, before)
  {
    forall tid | tid in jobs ensures JobOf(cfg, At(g, jobs[tid].id), jobs[tid]) {
      assert Keeps(cfg, At(f, jobs[tid].id), At(g, jobs[tid].id));
    }
    forall id | Get(remote, id) != Get(before, id) ensures UploadOf(cfg, At(g, id), Get(remote, id)) {
      assert Keeps(cfg, At(f, id), At(g, id));
    }
  }

  lemma StoreKeepsTrace(cfg: Config, files: Files, remote: map<ActionID, Record>, before: map<ActionID, Record>,
                        id: ActionID, store: Option<Record>)
    requires RemoteOf(cfg, files, remote, before) && (store.Some? ==> UploadOf(cfg, At(files, id), store))
    ensures RemoteOf(cfg, files, if store.Some? then remote[id := store.value] else remote, before)
  {
    hide UploadOf;
    var r := if store.Some? then remote[id := store.value] else remote;
    forall x | Get(r, x) != Get(before, x) ensures UploadOf(cfg, At(files, x), Get(r, x)) {}
  }

  lemma EffectTraced(cfg: Config, s: State, before: map<ActionID, Record>, tid: Tid, c: Choice, e: Effect)
    requires Traced(cfg, s, before) && Reliable(cfg) && tid in s.threads && tid.pid in s.procs
    requires EffectOf(cfg, s, tid, c) == Some(e)
    ensures TracedEffect(cfg, s.threads[tid], At(s.files, s.threads[tid].req.actionID), e)
  {
    var t := s.threads[tid];
    var id := t.req.actionID;
    var v := At(s.files, id);
    assert ThreadOk(cfg, t, v) && ThreadNamed(cfg, t, v, s.log) && PcOk(cfg, t) && Settled(t);
    assert HasEntry(t.pc) && t.req.cmd == CmdPut ==> Fits(t.entry.size, t.entry.bytes);
    hide UpInv;
    hide RemoteOf;
    hide JobsOf;
    hide TracedEffect;
    AdvanceTraced(cfg, t, v, Get(s.remote, id), Full(cfg, s.procs[tid.pid]), c);
  }

  lemma CommitTraced(cfg: Config, s: State, before: map<ActionID, Record>, tid: Tid, e: Effect)
    requires ThreadsSettled(s.threads) && JobsOf(cfg, s.files, s.jobs) && RemoteOf(cfg, s.files, s.remote, before)
    requires tid in s.threads && tid.pid in s.procs
    requires TracedEffect(cfg, s.threads[tid], At(s.files, s.threads[tid].req.actionID), e)
    requires Grows(cfg, s.files, Commit(cfg, s, tid, e).files)
    ensures var u := Commit(cfg, s, tid, e);
      ThreadsSettled(u.threads) && JobsOf(cfg, u.files, u.jobs) && RemoteOf(cfg, u.files, u.remote, before)
  {
    var id := s.threads[tid].req.actionID;
    var u := Commit(cfg, s, tid, e);
    StoreKeepsTrace(cfg, s.files, s.remote, before, id, e.store);
    hide RemoteOf;
    hide UploadOf;
    hide JobOf;
    hide Settled;
    hide Grows;
    GrowsKeepsTrace(cfg, s.files, u.files, u.jobs, u.remote, before);
  }

  lemma ThreadStepTraced(cfg: Config, s: State, before: map<ActionID, Record>, tid: Tid, c: Choice)
    requires Traced(cfg, s, before) && Reliable(cfg) && StepThread(cfg, s, tid, c).Some?
    requires Grows(cfg, s.files, StepThread(cfg, s, tid, c).value.files)
    ensures var u := StepThread(cfg, s, tid, c).value;
      ThreadsSettled(u.threads) && JobsOf(cfg, u.files, u.jobs) && RemoteOf(cfg, u.files, u.remote, before)
  {
    var e := EffectOf(cfg, s, tid, c).value;
    EffectTraced(cfg, s, before, tid, c, e);
    hide UpInv;
    hide Advance;
    hide TracedEffect;
    hide Grows;
    hide Commit;
    hide ThreadsSettled;
    hide JobsOf;
    hide RemoteOf;
    CommitTraced(cfg, s, before, tid, e);
  }

  lemma JobStepTraced(cfg: Config, s: State, before: map<ActionID, Record>, tid: Tid, c: Choice)
    requires Traced(cfg, s, before) && StepJob(s, tid, c).Some?
    ensures var u := StepJob(s, tid, c).value;
      ThreadsSettled(u.threads) && JobsOf(cfg, u.files, u.jobs) && RemoteOf(cfg, u.files, u.remote, before)
  {
    hide UpInv;
    var e := AdvanceJob(s.jobs[tid], s.procs[tid.pid], tid, c).value;
    var j := s.jobs[tid];
    assert JobOf(cfg, At(s.files, j.id), j);
    StoreKeepsTrace(cfg, s.files, s.remote, before, j.id, e.store);
  }

  lemma StepTraced(cfg: Config, s: State, before: map<ActionID, Record>, l: Label)
    requires Traced(cfg, s, before) && Sound(cfg) && Reliable(cfg) && Step(cfg, s, l).Some?
    ensures Traced(cfg, Step(cfg, s, l).value, before)
  {
    assert Inv(cfg, s) by { hide Inv; }
    StepKeepsInv(cfg, s, l);
    StepKeepsUp(cfg, s, l);
    hide UpInv;
    hide Inv;
    hide Sound;
    hide Settled;
    hide JobOf;
    hide RemoteOf;
    hide Grows;
    match l
    case ThreadL(tid, c) =>
      hide StepThread;
      ThreadStepTraced(cfg, s, before, tid, c);
    case JobL(tid, c) =>
      hide StepJob;
      JobStepTraced(cfg, s, before, tid, c);
    case ProcL(pid) =>
      NewThreadSettled(s, pid);
    case KillL(pid) =>
  }

  lemma NewThreadSettled(s: State, pid: nat)
    requires StepProc(s, pid).Some? && ThreadsSettled(s.threads)
    ensures ThreadsSettled(StepProc(s, pid).value.threads)
  {
  }

  lemma {:induction false} RunTraced(cfg: Config, s: State, before: map<ActionID, Record>, ls: seq<Label>)
    requires Traced(cfg, s, before) && Sound(cfg) && Reliable(cfg) && Run(cfg, s, ls).Some?
    ensures Traced(cfg, Run(cfg, s, ls).value, before)
    decreases |ls|
  {
    if ls != [] {
      StepTraced(cfg, s, before, ls[0]);
      RunTraced(cfg, Step(cfg, s, ls[0]).value, before, ls[1..]);
    }
  }

  /**
    Whatever a run changed in the remote store, by synchronous or asynchronous puts of any process and however late,
    is exactly the upload of the entry that can be read locally under that action ID.
   */
  lemma RemoteFollowsLocal(cfg: Config, s0: State, ls: seq<Label>, id: ActionID)
    requires Sound(cfg) && Reliable(cfg) && Init(cfg, s0) && Named(s0.procs, s0.remote) && Run(cfg, s0, ls).Some?
    ensures var s := Run(cfg, s0, ls).value;
      Get(s.remote, id) != Get(s0.remote, id) ==>
        UploadOf(cfg, At(s.files, id), Get(s.remote, id))
        && LocalEntry(cfg, At(s.files, id)).value.outputID != []
  {
    InitHasInv(cfg, s0);
    RunTraced(cfg, s0, s0.remote, ls);
    var s := Run(cfg, s0, ls).value;
    assert id in s.remote ==> s.remote[id].outputID != [];
  }
}
