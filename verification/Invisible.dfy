/**
  The remote write path never influences answers: reading only, putting synchronously, putting asynchronously and
  having puts rejected all give the responses of one and the same read-only run. And exactly when that is so.
 */
module Invisible {
  import opened Basics
  import opened Disk
  import opened Protocol
  import opened Exclusion
  import opened Safety
  import opened Uploads
  import opened Drain
  import opened RemoteBlind
  import opened Solo
  import opened Sources
  import Overlaps

  /** Where the remote store differs from what it was, the entry can be read locally. */
  ghost predicate RemoteKnown(cfg: Config, files: Files, remote: map<ActionID, Record>, before: map<ActionID, Record>) {
    forall id :: Get(remote, id) != Get(before, id) ==> LocalEntry(cfg, At(files, id)).Some?
  }

  // ---------------------------------------------------------------- bodies that compress

  /** Compression succeeds on the body of every PUT, if it is asked to. */
  ghost predicate Uploadable(cfg: Config, procs: Procs) {
    forall pid, i :: pid in procs && 0 <= i < |procs[pid].input| ==> UploadableRequest(cfg, procs[pid].input[i])
  }

  ghost predicate UploadableRequest(cfg: Config, r: Request) {
    r.cmd == CmdPut ==> forall e :: StoresBody(r, e) ==> Compresses(cfg, e)
  }

  lemma PutOfCompresses(cfg: Config, procs: Procs, id: ActionID, e: Entry)
    requires Uploadable(cfg, procs) && PutOf(procs, id, e)
    ensures Compresses(cfg, e)
  {
    var pid, i :| pid in procs && 0 <= i < |procs[pid].input| && PutsEntry(procs[pid].input[i], id, e);
    assert UploadableRequest(cfg, procs[pid].input[i]);
  }

  /** So no handler will fail to compress. */
  lemma DecidersCompress(cfg: Config, s0: State, s: State, tid: Tid)
    requires Base(cfg, s) && Sourced(cfg, s0, s) && Uploadable(cfg, s0.procs) && tid in s.threads
    requires s.threads[tid].pc.Deciding?
    ensures Compresses(cfg, s.threads[tid].entry)
  {
    var t := s.threads[tid];
    assert Carries(cfg, s0, t) && PcOk(cfg, t);
    PutOfCompresses(cfg, s0.procs, t.req.actionID, t.entry);
  }

  // ---------------------------------------------------------------- what the remote store holds

  lemma OnlyCallsStore(cfg: Config, t: Thread, v: View, rem: Option<Record>, full: bool, c: Choice)
    requires Advance(cfg, t, v, rem, full, c).Some? && Advance(cfg, t, v, rem, full, c).value.store.Some?
    ensures t.pc.Putting?
  {
  }

  lemma StoreKnown(cfg: Config, f: Files, g: Files, remote: map<ActionID, Record>, before: map<ActionID, Record>,
                   log: seq<Event>, tid: Tid, id: ActionID, store: Option<Record>)
    requires RemoteKnown(cfg, f, remote, before) && Grows(cfg, f, g) && IssuedAreReadable(cfg, f, log)
    requires store.Some? ==> IssuedBy(log, tid, id)
    ensures RemoteKnown(cfg, g, if store.Some? then remote[id := store.value] else remote, before)
  {
    assert store.Some? ==> HasIssued(log, id);
    forall x | Get(remote, x) != Get(before, x) || (store.Some? && x == id)
      ensures LocalEntry(cfg, At(g, x)).Some?
    {
      assert Keeps(cfg, At(f, x), At(g, x));
    }
  }

  /** Whatever reaches the remote store can already be read locally. */
  lemma StepKeepsKnown(cfg: Config, s: State, before: map<ActionID, Record>, l: Label)
    requires UpInv(cfg, s) && RemoteKnown(cfg, s.files, s.remote, before)
    requires Step(cfg, s, l).Some? && Grows(cfg, s.files, Step(cfg, s, l).value.files)
    ensures RemoteKnown(cfg, Step(cfg, s, l).value.files, Step(cfg, s, l).value.remote, before)
  {
    hide RemoteKnown;
    hide Inv;
    var u := Step(cfg, s, l).value;
    match l
    case ThreadL(tid, c) =>
      hide Advance;
      var t := s.threads[tid];
      var id := t.req.actionID;
      var e := EffectOf(cfg, s, tid, c).value;
      if e.store.Some? {
        OnlyCallsStore(cfg, t, At(s.files, id), Get(s.remote, id), Full(cfg, s.procs[tid.pid]), c);
      }
      StoreKnown(cfg, s.files, u.files, s.remote, before, s.log, tid, id, e.store);
    case JobL(tid, c) =>
      StoreKnown(cfg, s.files, u.files, s.remote, before, s.log, tid, s.jobs[tid].id, AdvanceJob(s.jobs[tid],
          s.procs[tid.pid], tid, c).value.store);
    case ProcL(pid) => StoreKnown(cfg, s.files, u.files, s.remote, before, s.log, Tid(0, 0), [], None);
    case KillL(pid) => StoreKnown(cfg, s.files, u.files, s.remote, before, s.log, Tid(0, 0), [], None);
  }

  // ---------------------------------------------------------------- with reliable metadata

  ghost predicate KnownInv(cfg: Config, s0: State, s: State) {
    UpInv(cfg, s) && Sourced(cfg, s0, s) && RemoteKnown(cfg, s.files, s.remote, s0.remote)
  }

  lemma KnownIsBlind(cfg: Config, s0: State, s: State)
    requires KnownInv(cfg, s0, s) && Uploadable(cfg, s0.procs)
    ensures Blind(cfg, s, s0.remote) && Inv(cfg, s) && Base(cfg, s)
  {
    forall tid | tid in s.threads ensures BlindThread(cfg, s, s.threads[tid], s0.remote) {
      assert ThreadOk(cfg, s.threads[tid], At(s.files, s.threads[tid].req.actionID));
      if s.threads[tid].pc.Deciding? {
        DecidersCompress(cfg, s0, s, tid);
      }
    }
  }

  lemma {:induction false} KnownRunIsBlind(cfg: Config, s0: State, s: State, ls: seq<Label>)
    requires Sound(cfg) && Reliable(cfg) && Uploadable(cfg, s0.procs) && KnownInv(cfg, s0, s) && Run(cfg, s, ls).Some?
    ensures BlindRun(cfg, s, ls, s0.remote)
    decreases |ls|
  {
    KnownIsBlind(cfg, s0, s);
    hide Sound;
    hide UpInv;
    hide Inv;
    hide Base;
    hide Sourced;
    hide RemoteKnown;
    hide Blind;
    hide Uploadable;
    if ls != [] {
      StepKeepsInv(cfg, s, ls[0]);
      StepKeepsUp(cfg, s, ls[0]);
      StepKeepsKnown(cfg, s, s0.remote, ls[0]);
      StepSourced(cfg, s0, s, ls[0]);
      hide Step;
      KnownRunIsBlind(cfg, s0, Step(cfg, s, ls[0]).value, ls[1..]);
    }
  }

  // ---------------------------------------------------------------- without puts that can arrive

  /** Puts can reach the remote store. */
  predicate Stores(cfg: Config) {
    cfg.mode.Sync? || Overlaps.HasSlots(cfg)
  }

  lemma StepStoresNothing(cfg: Config, s: State, l: Label)
    requires AsyncInv(cfg, s) && !Stores(cfg) && Step(cfg, s, l).Some?
    ensures Step(cfg, s, l).value.remote == s.remote
  {
    match l
    case ThreadL(tid, c) =>
      var t := s.threads[tid];
      assert PcOk(cfg, t);
      hide AsyncInv;
      hide Advance;
      if EffectOf(cfg, s, tid, c).value.store.Some? {
        OnlyCallsStore(cfg, t, At(s.files, t.req.actionID), Get(s.remote, t.req.actionID), Full(cfg, s.procs[tid.pid]),
            c);
      }
    case JobL(tid, c) =>
      if s.jobs[tid].pc.Running? {
        Overlaps.RunningHoldsSlot(cfg, s, tid);
      }
      hide AsyncInv;
    case ProcL(pid) =>
      hide AsyncInv;
    case KillL(pid) =>
      hide AsyncInv;
  }

  lemma QuietIsBlind(cfg: Config, s0: State, s: State)
    requires Base(cfg, s) && Sourced(cfg, s0, s) && Uploadable(cfg, s0.procs) && s.remote == s0.remote
    ensures Blind(cfg, s, s0.remote)
  {
    forall tid | tid in s.threads ensures BlindThread(cfg, s, s.threads[tid], s0.remote) {
      if s.threads[tid].pc.Deciding? {
        DecidersCompress(cfg, s0, s, tid);
      }
    }
  }

  lemma {:induction false} QuietRunIsBlind(cfg: Config, s0: State, s: State, ls: seq<Label>)
    requires !Stores(cfg) && Uploadable(cfg, s0.procs) && AsyncInv(cfg, s) && Sourced(cfg, s0, s)
    requires s.remote == s0.remote
    requires Run(cfg, s, ls).Some?
    ensures BlindRun(cfg, s, ls, s0.remote)
    decreases |ls|
  {
    assert Base(cfg, s);
    QuietIsBlind(cfg, s0, s);
    hide AsyncInv;
    hide Base;
    hide Sourced;
    hide Blind;
    hide Uploadable;
    hide Stores;
    if ls != [] {
      StepStoresNothing(cfg, s, ls[0]);
      StepKeepsAsync(cfg, s, ls[0]);
      StepSourced(cfg, s0, s, ls[0]);
      hide Step;
      QuietRunIsBlind(cfg, s0, Step(cfg, s, ls[0]).value, ls[1..]);
    }
  }

  // ---------------------------------------------------------------- theorems

  /** The read-only server under the same schedule ends in the same state, but for the remote half of PUTs. */
  ghost predicate Mirrored(cfg: Config, s0: State, ls: seq<Label>)
    requires Run(cfg, s0, ls).Some?
  {
    exists log :: Run(Twin(cfg), s0, ShownRun(cfg, s0, ls)) == Some(Erased(Run(cfg, s0, ls).value, s0.remote, log))
  }

  ghost predicate AlwaysMirrored(cfg: Config, s0: State) {
    forall ls :: Run(cfg, s0, ls).Some? ==> Mirrored(cfg, s0, ls)
  }

  lemma BlindIsMirrored(cfg: Config, s0: State, ls: seq<Label>)
    requires Init(cfg, s0) && BlindRun(cfg, s0, ls, s0.remote) && Run(cfg, s0, ls).Some?
    ensures Mirrored(cfg, s0, ls)
  {
    InitIsBlank(cfg, s0);
    var log := RunShown(cfg, s0, s0.remote, [], ls);
    assert Run(Twin(cfg), s0, ShownRun(cfg, s0, ls)) == Some(Erased(Run(cfg, s0, ls).value, s0.remote, log));
    hide *;
  }

  lemma InitIsKnown(cfg: Config, s0: State)
    requires Init(cfg, s0) && Named(s0.procs, s0.remote)
    ensures KnownInv(cfg, s0, s0)
  {
    InitHasInv(cfg, s0);
    InitSourced(cfg, s0);
  }

  /** Every run is mirrored if nothing is stored, or if metadata is reliable and output IDs are not empty. */
  lemma RunsAreMirrored(cfg: Config, s0: State)
    requires Init(cfg, s0) && Uploadable(cfg, s0.procs)
    requires !Stores(cfg) || (Sound(cfg) && Reliable(cfg) && Named(s0.procs, s0.remote))
    ensures AlwaysMirrored(cfg, s0)
  {
    forall ls | Run(cfg, s0, ls).Some? ensures Mirrored(cfg, s0, ls) {
      if !Stores(cfg) {
        InitSourced(cfg, s0);
        InitIsAsync(cfg, s0);
        QuietRunIsBlind(cfg, s0, s0, ls);
      } else {
        InitIsKnown(cfg, s0);
        KnownRunIsBlind(cfg, s0, s0, ls);
      }
      hide Run;
      BlindIsMirrored(cfg, s0, ls);
      hide *;
    }
  }

  /** What mirroring means to a client: the local files and every response are the read-only server's. */
  lemma MirroredAnswers(cfg: Config, s0: State, ls: seq<Label>)
    requires Run(cfg, s0, ls).Some? && Mirrored(cfg, s0, ls)
    ensures var s := Run(cfg, s0, ls).value; var r := Run(Twin(cfg), s0, ShownRun(cfg, s0, ls));
      && r.Some? && r.value.files == s.files && r.value.remote == s0.remote && r.value.procs.Keys == s.procs.Keys
      && (forall pid :: pid in s.procs ==> r.value.procs[pid].out == s.procs[pid].out)
  {
    hide Run;
    hide ShownRun;
    hide EraseThreads;
  }

  /**
    Whatever the remote write path does (synchronous puts, asynchronous puts, rejected puts, failures), the local
    files and every response are those of the read-only server under the same schedule.
   */
  lemma RemoteWritesNeverShow(cfg: Config, s0: State, ls: seq<Label>)
    requires Sound(cfg) && Reliable(cfg) && Uploadable(cfg, s0.procs)
    requires Init(cfg, s0) && Named(s0.procs, s0.remote) && Run(cfg, s0, ls).Some?
    ensures var s := Run(cfg, s0, ls).value; var r := Run(Twin(cfg), s0, ShownRun(cfg, s0, ls));
      && r.Some? && r.value.files == s.files && r.value.remote == s0.remote && r.value.procs.Keys == s.procs.Keys
      && (forall pid :: pid in s.procs ==> r.value.procs[pid].out == s.procs[pid].out)
  {
    RunsAreMirrored(cfg, s0);
    MirroredAnswers(cfg, s0, ls);
    hide *;
  }

  /** Two servers that differ only in how they write to the remote store give the same answers. */
  lemma ModesAgree(cfg: Config, other: Config, s0: State, ls: seq<Label>, ks: seq<Label>)
    requires Sound(cfg) && Reliable(cfg) && Init(cfg, s0) && Named(s0.procs, s0.remote)
    requires other == cfg.(mode := other.mode) && Uploadable(cfg, s0.procs) && Uploadable(other, s0.procs)
    requires Run(cfg, s0, ls).Some? && Run(other, s0, ks).Some? && ShownRun(cfg, s0, ls) == ShownRun(other, s0, ks)
    ensures var s := Run(cfg, s0, ls).value; var u := Run(other, s0, ks).value;
      && s.files == u.files && s.procs.Keys == u.procs.Keys
      && forall pid :: pid in s.procs ==> s.procs[pid].out == u.procs[pid].out
  {
    OtherIsInit(cfg, other, s0);
    hide Init;
    hide Sound;
    hide Run;
    hide ShownRun;
    hide Uploadable;
    RemoteWritesNeverShow(cfg, s0, ls);
    RemoteWritesNeverShow(other, s0, ks);
  }

  lemma OtherIsInit(cfg: Config, other: Config, s: State)
    requires other == cfg.(mode := other.mode) && Init(cfg, s) && Sound(cfg)
    ensures Init(other, s) && Sound(other)
  {
    forall id ensures Whole(other, At(s.files, id)) {
      assert Whole(cfg, At(s.files, id));
    }
  }

  // ---------------------------------------------------------------- where mirroring ends

  lemma {:induction false} ShownAppend(cfg: Config, s: State, ls: seq<Label>, l: Label)
    requires Run(cfg, s, ls).Some? && Step(cfg, Run(cfg, s, ls).value, l).Some?
    requires Shown(cfg, Run(cfg, s, ls).value, l).Some?
    ensures ShownRun(cfg, s, ls + [l]) == ShownRun(cfg, s, ls) + [Shown(cfg, Run(cfg, s, ls).value, l).value]
    decreases |ls|
  {
    hide Step;
    hide Shown;
    if ls == [] {
      assert [l][1..] == [];
      assert ls + [l] == [l];
    } else {
      assert (ls + [l])[1..] == ls[1..] + [l];
      ShownAppend(cfg, Step(cfg, s, ls[0]).value, ls[1..], l);
    }
  }

  /** The read-only server's own next action does not lead where the full server's leads. */
  ghost predicate Diverges(cfg: Config, s: State, before: map<ActionID, Record>, l: Label) {
    && Step(cfg, s, l).Some? && Shown(cfg, s, l).Some?
    && forall log, log' :: Step(Twin(cfg), Erased(s, before, log), Shown(cfg, s, l).value) !=
         Some(Erased(Step(cfg, s, l).value, before, log'))
  }

  lemma DivergenceShows(cfg: Config, s0: State, s: State, l: Label)
    requires From(cfg, s0, s) && Diverges(cfg, s, s0.remote, l)
    ensures !AlwaysMirrored(cfg, s0)
  {
    var ls :| Run(cfg, s0, ls) == Some(s);
    var u := Step(cfg, s, l).value;
    RunAppend(cfg, s0, ls, l);
    ShownAppend(cfg, s0, ls, l);
    var k := Shown(cfg, s, l).value;
    hide Step;
    hide Shown;
    hide Erased;
    if Mirrored(cfg, s0, ls) && Mirrored(cfg, s0, ls + [l]) {
      var log :| Run(Twin(cfg), s0, ShownRun(cfg, s0, ls)) == Some(Erased(s, s0.remote, log));
      var log' :| Run(Twin(cfg), s0, ShownRun(cfg, s0, ls + [l])) == Some(Erased(u, s0.remote, log'));
      LastStep(Twin(cfg), s0, ShownRun(cfg, s0, ls), k, Erased(s, s0.remote, log), Erased(u, s0.remote, log'));
    }
  }

  lemma LastStep(cfg: Config, s: State, ks: seq<Label>, k: Label, r: State, w: State)
    requires Run(cfg, s, ks) == Some(r) && Run(cfg, s, ks + [k]) == Some(w)
    ensures Step(cfg, r, k) == Some(w)
  {
    RunAppend(cfg, s, ks, k);
  }

  /** The twin's handler after its own action. */
  lemma TwinThreadAfter(cfg: Config, s: State, before: map<ActionID, Record>, log: seq<Event>, tid: Tid, c: Choice,
                        e: Effect)
    requires tid in s.threads && tid.pid in s.procs && !e.t.pc.Gone?
    requires var t := s.threads[tid];
      Advance(Twin(cfg), Erase(t), At(s.files, t.req.actionID), Get(before, t.req.actionID), false, c) == Some(e)
    requires InSection(s.threads[tid].pc)
    ensures var r := Step(Twin(cfg), Erased(s, before, log), ThreadL(tid, c));
      r.Some? && tid in r.value.threads && r.value.threads[tid] == e.t
  {
    TwinSees(cfg, s, before, log, tid, c);
    ErasedLocks(cfg, s.locks, tid, s.threads[tid], s.threads[tid]);
    assert Erased(s, before, log).threads[tid] == Erase(s.threads[tid]);
    hide EffectOf;
    hide Advance;
    hide Erase;
    hide Relock;
    hide AfterMove;
  }

  lemma FetchEffects(cfg: Config, t: Thread, v: View, rem: Option<Record>, full: bool)
    requires t.pc.Fetching?
    ensures Advance(cfg, t, v, rem, full, Go).Some?
    ensures var u := Advance(cfg, t, v, rem, full, Go).value.t;
      Erase(u) == u && !u.pc.Gone? && (rem.Some? ==> u != Return(t, Absent))
    ensures Advance(Twin(cfg), t, v, None, full, Go) == Some(Ret(t, Absent))
  {
  }

  lemma ErasedThreadAfter(cfg: Config, s: State, before: map<ActionID, Record>, log: seq<Event>, tid: Tid, e: Effect)
    requires tid in s.threads && tid.pid in s.procs && !e.t.pc.Gone? && Erase(e.t) == e.t
    ensures var r := Erased(Commit(cfg, s, tid, e), before, log); tid in r.threads && r.threads[tid] == e.t
  {
    hide Relock;
    hide AfterMove;
    hide Erase;
  }

  /** A GET about to see an object that only this run can have written. */
  lemma FetchDiverges(cfg: Config, s: State, before: map<ActionID, Record>, tid: Tid)
    requires tid in s.threads && tid.pid in s.procs && s.threads[tid].pc.Fetching?
    requires var id := s.threads[tid].req.actionID; id in s.remote && id !in before
    ensures Diverges(cfg, s, before, ThreadL(tid, Go))
  {
    var t := s.threads[tid];
    var id := t.req.actionID;
    var l := ThreadL(tid, Go);
    FetchEffects(cfg, t, At(s.files, id), Get(s.remote, id), Full(cfg, s.procs[tid.pid]));
    FetchEffects(cfg, t, At(s.files, id), Get(s.remote, id), false);
    assert Erase(t) == t;
    var e := EffectOf(cfg, s, tid, Go).value;
    hide Advance;
    hide Commit;
    assert Step(cfg, s, l) == Some(Commit(cfg, s, tid, e)) by { FetchSteps(cfg, s, tid, e); }
    hide Step;
    forall log, log'
      ensures Step(Twin(cfg), Erased(s, before, log), l) != Some(Erased(Commit(cfg, s, tid, e), before, log'))
    {
      TwinThreadAfter(cfg, s, before, log, tid, Go, Ret(t, Absent));
      ErasedThreadAfter(cfg, s, before, log', tid, e);
      hide Erased;
    }
  }

  lemma FetchSteps(cfg: Config, s: State, tid: Tid, e: Effect)
    requires tid in s.threads && tid.pid in s.procs && s.threads[tid].pc.Fetching?
    requires EffectOf(cfg, s, tid, Go) == Some(e)
    ensures Step(cfg, s, ThreadL(tid, Go)) == Some(Commit(cfg, s, tid, e))
  {
    hide EffectOf;
    hide Commit;
  }

  /** A PUT about to fail to compress. */
  lemma DecideDiverges(cfg: Config, s: State, before: map<ActionID, Record>, tid: Tid, c: Choice)
    requires tid in s.threads && tid.pid in s.procs && s.threads[tid].pc.Deciding? && s.threads[tid].result.Stored?
    requires !Compresses(cfg, s.threads[tid].entry) && c == if cfg.compressMayFail then Fail else Go
    ensures Diverges(cfg, s, before, ThreadL(tid, c))
  {
    var t := s.threads[tid];
    var e := Ret(t, Failed(CompressFailed));
    assert EffectOf(cfg, s, tid, c) == Some(e);
    assert Step(cfg, s, ThreadL(tid, c)) == Some(Commit(cfg, s, tid, e));
    assert Shown(cfg, s, ThreadL(tid, c)) == Some(ThreadL(tid, Go));
    forall log, log'
      ensures Step(Twin(cfg), Erased(s, before, log), ThreadL(tid, Go)) != Some(Erased(Commit(cfg, s, tid, e), before,
          log'))
    {
      TwinThreadAfter(cfg, s, before, log, tid, Go, Move(t, Unlocking));
      assert Erased(Commit(cfg, s, tid, e), before, log').threads[tid] == e.t;
    }
  }

  // ---------------------------------------------------------------- runs in which it ends

  const GET := Request(2, CmdGet, Overlaps.ID, [], None, 0)

  /** One process about to be told a PUT without bytes, another a GET of the same action, on an empty directory. */
  function PutThenGet(outputID: Bytes): State {
    State(map[], map[], map[], map[], map[], map[0 := Fresh(Overlaps.Put(outputID)), 1 := Fresh(GET)], [])
  }

  /** The put arrives. */
  lemma PutLands(cfg: Config, start: State, s0: State, s: State, t: Thread, v: View) returns (u: State)
    requires Overlaps.Holding(cfg, start, s0, s, 0, t, v) && t.pc.Putting? && cfg.mode.Sync? && CanUpload(cfg, t.entry)
    ensures Overlaps.Holding(cfg, start, s0, u, 0, t.(pc := Unlocking), v) && Overlaps.ID in u.remote
  {
    hide From;
    var e := Move(t, Unlocking).(event := Some(EvInnerPut(true)), store := Some(RecordOf(PutPayload(cfg, t.entry), 0)));
    assert forall full :: Finish(cfg, t, full, Clock(0)) == Some(e);
    hide Finish;
    hide PutPayload;
    u := Overlaps.Take(cfg, start, s, Tid(0, 0), Clock(0), e);
  }

  /** The asynchronous put arrives. */
  lemma UploadLands(cfg: Config, start: State, s: State) returns (u: State)
    requires From(cfg, start, s) && 0 in s.procs
    requires Tid(0, 0) in s.jobs && s.jobs[Tid(0, 0)].pc.Running? && s.jobs[Tid(0, 0)].id == Overlaps.ID
    ensures From(cfg, start, u) && Overlaps.ID in u.remote && u.locks == s.locks && u.files == s.files
    ensures u.procs == s.procs
  {
    hide From;
    u := StepJob(s, Tid(0, 0), Clock(0)).value;
    FromStep(cfg, start, s, JobL(Tid(0, 0), Clock(0)));
  }

  /** After the PUT its object is in the remote store, its entry may not be found, and the GET has not begun. */
  ghost predicate Uploaded(cfg: Config, start: State, s: State) {
    && From(cfg, start, s) && Overlaps.ID in s.remote && s.locks == map[] && CanMiss(cfg, At(s.files, Overlaps.ID))
    && 1 in s.procs && s.procs[1] == Fresh(GET)
  }

  lemma PutLocally(cfg: Config, outputID: Bytes) returns (s: State, t: Thread, v: View)
    requires Sound(cfg) && Overlaps.Forgets(cfg, outputID) && !cfg.mode.ReadOnly?
    ensures var start := PutThenGet(outputID);
      Alone(cfg, start, start, s, 0, t, v) && t.pc.PutCalling? && t.req.actionID == Overlaps.ID && CanMiss(cfg, v)
      && t.entry == Overlaps.EntryFor(outputID)
  {
    var start := PutThenGet(outputID);
    FromSelf(cfg, start);
    hide Alone;
    hide From;
    hide Sound;
    s, v := Overlaps.WriteData(cfg, start, start, 0, outputID);
    assert CanMiss(cfg, v);
    hide CanMiss;
    s, t, v := Overlaps.WriteMeta(cfg, start, start, s, 0, outputID, v);
    s := Overlaps.Decide(cfg, start, start, s, 0, t, v);
    t := t.(pc := PutCalling);
  }

  lemma UploadFirst(cfg: Config, outputID: Bytes) returns (s: State)
    requires Sound(cfg) && Overlaps.Forgets(cfg, outputID) && Stores(cfg)
    ensures Uploaded(cfg, PutThenGet(outputID), s)
  {
    var start := PutThenGet(outputID);
    var t, v;
    s, t, v := PutLocally(cfg, outputID);
    hide Alone;
    hide From;
    hide Overlaps.Holding;
    hide CanMiss;
    if cfg.mode.Sync? {
      s := Overlaps.Call(cfg, start, start, s, 0, t, v);
      s := PutLands(cfg, start, start, s, t.(pc := Putting), v);
      s := Overlaps.Unlock(cfg, start, start, s, 0, t.(pc := Unlocking), v);
    } else {
      s := Overlaps.CallAndUnlock(cfg, start, start, s, 0, t, v);
      s := UploadLands(cfg, start, s);
    }
  }

  /** The GET misses locally and asks the remote store. */
  lemma AskNext(cfg: Config, start: State, s0: State) returns (s: State)
    requires Uploaded(cfg, start, s0)
    ensures From(cfg, start, s) && Tid(1, 0) in s.threads && 1 in s.procs && s.threads[Tid(1, 0)].pc.Fetching?
    ensures s.threads[Tid(1, 0)].req == GET && Overlaps.ID in s.remote
  {
    hide From;
    hide Alone;
    var v := At(s0.files, Overlaps.ID);
    var t := NewThread(GET);
    s := Boot(cfg, start, s0, 1, GET);
    s := Enter(cfg, start, s0, s, 1, t, v);
    var t1 := t.(pc := Checking);
    s := Act(cfg, start, s0, s, 1, t1, v, if LocalEntry(cfg, v).None? then Go else Fail, Move(t1, Calling));
    var t2 := t.(pc := Calling);
    s := Act(cfg, start, s0, s, 1, t2, v, Go, Move(t2, Fetching));
    AloneThread(cfg, start, s0, s, 1, t.(pc := Fetching), v);
  }

  lemma PutThenGetIsInit(cfg: Config, outputID: Bytes)
    ensures var s := PutThenGet(outputID);
      Init(cfg, s) && Uploadable(cfg, s.procs) && (outputID != [] ==> Named(s.procs, s.remote))
  {
    forall id ensures Whole(cfg, At(PutThenGet(outputID).files, id)) {}
  }

  /** A GET sees what a PUT uploaded and its server cannot find. */
  lemma UploadShows(cfg: Config, outputID: Bytes)
    requires Sound(cfg) && Overlaps.Forgets(cfg, outputID) && Stores(cfg)
    ensures !AlwaysMirrored(cfg, PutThenGet(outputID))
  {
    var start := PutThenGet(outputID);
    var a := UploadFirst(cfg, outputID);
    var s := AskNext(cfg, start, a);
    hide From;
    FetchDiverges(cfg, s, start.remote, Tid(1, 0));
    DivergenceShows(cfg, start, s, ThreadL(Tid(1, 0), Go));
  }

  /**
    As long as bodies compress, every run is mirrored by the read-only server exactly when puts never arrive; with
    non-empty output IDs, also when metadata can always be written and read, and only then.
   */
  lemma MirroredIff(cfg: Config)
    requires Sound(cfg)
    ensures (forall s0 :: Init(cfg, s0) && Uploadable(cfg, s0.procs) ==> AlwaysMirrored(cfg, s0)) <==> !Stores(cfg)
    ensures (forall s0 :: Init(cfg, s0) && Uploadable(cfg, s0.procs) && Named(s0.procs, s0.remote) ==>
              AlwaysMirrored(cfg, s0))
      <==> !Stores(cfg) || Reliable(cfg)
  {
    hide Sound;
    hide Init;
    hide Named;
    hide Uploadable;
    hide AlwaysMirrored;
    if Stores(cfg) {
      PutThenGetIsInit(cfg, []);
      UploadShows(cfg, []);
      if !Reliable(cfg) {
        PutThenGetIsInit(cfg, [2]);
        UploadShows(cfg, [2]);
      }
    }
    forall s0 | Init(cfg, s0) && Uploadable(cfg, s0.procs) &&
        (!Stores(cfg) || (Reliable(cfg) && Named(s0.procs, s0.remote)))
      ensures AlwaysMirrored(cfg, s0)
    {
      RunsAreMirrored(cfg, s0);
    }
  }

  // ---------------------------------------------------------------- bodies that do not compress

  function OnePut(r: Request): State {
    State(map[], map[], map[], map[], map[], map[0 := Fresh(r)], [])
  }

  /** The PUT is over locally. */
  lemma ReachDecision(cfg: Config, r: Request, e: Entry) returns (s: State, t: Thread)
    requires r.cmd == CmdPut && r.actionID != [] && StoresBody(r, e)
    ensures From(cfg, OnePut(r), s) && Tid(0, 0) in s.threads && 0 in s.procs && s.threads[Tid(0, 0)] == t
    ensures t.pc.Deciding? && t.result.Stored? && t.entry == e
  {
    var start := OnePut(r);
    var v := NO_FILES;
    FromSelf(cfg, start);
    assert CanMiss(cfg, v);
    hide From;
    hide Alone;
    hide StoresBody;
    hide CanMiss;
    t := NewThread(r);
    s := Boot(cfg, start, start, 0, r);
    s := Enter(cfg, start, start, s, 0, t, v);
    s := MissAndRead(cfg, start, start, s, 0, t.(pc := Checking), v, e);
    t := t.(pc := Creating, entry := e);
    s := WriteFileOf(cfg, start, start, s, 0, t, v);
    v := v.(data := Some(e.bytes), dataTmp := None);
    s := CleanUp(cfg, start, start, s, 0, t.(pc := Cleaning(true)), v);
    t := t.(pc := MetaCreating);
    s := WriteMetaOf(cfg, start, start, s, 0, t, v);
    t := Written(t, true);
    AloneThread(cfg, start, start, s, 0, t, v.(meta := Some(MetaText(cfg, e)), metaTmp := None));
  }

  lemma AloneThread(cfg: Config, start: State, s0: State, s: State, pid: nat, t: Thread, v: View)
    requires Alone(cfg, start, s0, s, pid, t, v)
    ensures From(cfg, start, s) && Tid(pid, 0) in s.threads && pid in s.procs && s.threads[Tid(pid, 0)] == t
    ensures s.remote == s0.remote
  {
    hide From;
  }

  lemma OnlyThatPut(cfg: Config, r: Request, s: State, tid: Tid)
    requires Base(cfg, s) && SameInputs(OnePut(r).procs, s.procs) && tid in s.threads
    ensures s.threads[tid].req == r
  {
    assert ThreadOwned(s.procs[tid.pid], tid.index, s.threads[tid]);
    assert tid.pid in OnePut(r).procs && s.procs[tid.pid].input == [r];
    hide LocksHeld;
    hide PcsOk;
  }

  lemma PutsNeverFetch(cfg: Config, s: State, tid: Tid)
    requires Base(cfg, s) && tid in s.threads && s.threads[tid].req.cmd == CmdPut
    ensures !s.threads[tid].pc.Fetching?
  {
    assert PcOk(cfg, s.threads[tid]);
  }

  lemma OnlyInputs(cfg: Config, s0: State, s: State)
    requires Sourced(cfg, s0, s)
    ensures SameInputs(s0.procs, s.procs)
  {
  }

  /** A server that is only told one PUT never asks the remote store. */
  lemma OnePutBlindNow(cfg: Config, r: Request, s: State)
    requires r.cmd == CmdPut && Uploadable(cfg, OnePut(r).procs) && Base(cfg, s) && Sourced(cfg, OnePut(r), s)
    ensures Blind(cfg, s, map[])
  {
    OnlyInputs(cfg, OnePut(r), s);
    hide Base;
    hide Sourced;
    hide Uploadable;
    hide OnePut;
    hide SameInputs;
    hide Compresses;
    forall tid | tid in s.threads ensures BlindThread(cfg, s, s.threads[tid], map[]) {
      OnlyThatPut(cfg, r, s, tid);
      PutsNeverFetch(cfg, s, tid);
      if s.threads[tid].pc.Deciding? {
        DecidersCompress(cfg, OnePut(r), s, tid);
      }
    }
  }

  lemma {:induction false} OnePutIsBlind(cfg: Config, r: Request, s: State, ls: seq<Label>)
    requires r.cmd == CmdPut && Uploadable(cfg, OnePut(r).procs) && Base(cfg, s) && Sourced(cfg, OnePut(r), s)
    requires Run(cfg, s, ls).Some?
    ensures BlindRun(cfg, s, ls, map[])
    decreases |ls|
  {
    hide Base;
    hide Sourced;
    hide Blind;
    hide Uploadable;
    hide Step;
    OnePutBlindNow(cfg, r, s);
    if ls != [] {
      StepSourced(cfg, OnePut(r), s, ls[0]);
      StepKeepsBase(cfg, s, ls[0]);
      OnePutIsBlind(cfg, r, Step(cfg, s, ls[0]).value, ls[1..]);
    }
  }

  lemma OnePutIsInit(cfg: Config, r: Request)
    requires Framed(r)
    ensures Init(cfg, OnePut(r))
  {
    forall id ensures Whole(cfg, At(OnePut(r).files, id)) {}
  }

  /** A single PUT is mirrored exactly when its body compresses, if it is asked to. */
  lemma OnePutMirroredIff(cfg: Config, r: Request)
    requires r.cmd == CmdPut && r.actionID != [] && Framed(r)
    ensures AlwaysMirrored(cfg, OnePut(r)) <==> UploadableRequest(cfg, r)
  {
    OnePutIsInit(cfg, r);
    if UploadableRequest(cfg, r) {
      InitSourced(cfg, OnePut(r));
      forall ls | Run(cfg, OnePut(r), ls).Some? ensures Mirrored(cfg, OnePut(r), ls) {
        OnePutIsBlind(cfg, r, OnePut(r), ls);
        BlindIsMirrored(cfg, OnePut(r), ls);
        hide *;
      }
    } else {
      var e :| StoresBody(r, e) && !Compresses(cfg, e);
      var s, t := ReachDecision(cfg, r, e);
      var c := if cfg.compressMayFail then Fail else Go;
      hide From;
      DecideDiverges(cfg, s, OnePut(r).remote, Tid(0, 0), c);
      hide Diverges;
      hide AlwaysMirrored;
      DivergenceShows(cfg, OnePut(r), s, ThreadL(Tid(0, 0), c));
    }
  }
}
