/**
  From one server to another: what a PUT uploaded is what a server with an empty cache directory answers, on its first
  GET and on every later one.
 */
module EndToEnd {
  import opened Basics
  import opened Disk
  import opened Protocol
  import opened Exclusion
  import opened Safety
  import opened Uploads
  import opened Provenance
  import opened Promised
  import Origins
  import Sources
  import Refinement

  // ---------------------------------------------------------------- the downloading server

  /**
    What the second server is about: an action ID it never PUTs, its remote object, and what that fills in, if
    anything.
   */
  datatype Target = Target(id: ActionID, rec: Record, entry: Option<Entry>)

  predicate GetsOnly(p: Proc, id: ActionID) {
    forall i :: 0 <= i < |p.input| && p.input[i].actionID == id ==> p.input[i].cmd != CmdPut
  }

  /** The target's data file holds the target's bytes. */
  predicate HasBytes(v: View, g: Target) {
    g.entry.Some? && v.data == Some(g.entry.value.bytes)
  }

  /** The handler has put its data file in place, or answers with an entry. */
  predicate NeedsBytes(t: Thread) {
    WritesMeta(t.pc) || t.pc == Cleaning(true) || t.result.Found?
  }

  /** A handler of the target action ID works towards the target entry. */
  predicate Carrier(t: Thread, v: View, g: Target) {
    t.req.actionID == g.id ==>
      && t.req.cmd != CmdPut
      && (WritesData(t.pc) || WritesMeta(t.pc) ==> Some(t.entry) == g.entry)
      && (t.result.Found? ==> Some(t.result.entry) == g.entry)
      && (t.pc.Unlocking? || t.pc.Answering? ==> t.result.Found? || t.result.Failed?)
      && (NeedsBytes(t) ==> HasBytes(v, g))
  }

  predicate Local(cfg: Config, v: View, g: Target) {
    LocalEntry(cfg, v).None? || LocalEntry(cfg, v) == g.entry
  }

  /** A GET of the target that did not fail is a hit on the target entry, whose bytes are in the file it names. */
  predicate Hit(cfg: Config, v: View, r: Request, a: Response, g: Target) {
    r.actionID == g.id && r.cmd == CmdGet && a.err.None? ==>
      && HasBytes(v, g) && !a.miss && a.outputID == g.entry.value.outputID && a.size == g.entry.value.size
      && a.time == Some(g.entry.value.time) && a.diskPath == Some(cfg.path(g.id))
  }

  predicate OutHits(cfg: Config, v: View, p: Proc, g: Target) {
    forall i :: 0 <= i < |p.out| && p.out[i].index < |p.input| ==> Hit(cfg, v, p.input[p.out[i].index],
        p.out[i].response, g)
  }

  predicate ProcServes(cfg: Config, v: View, p: Proc, g: Target) {
    GetsOnly(p, g.id) && OutHits(cfg, v, p, g) && ClosesOnClose(p)
  }

  predicate Carriers(threads: Threads, v: View, g: Target) {
    forall tid :: tid in threads ==> Carrier(threads[tid], v, g)
  }

  predicate NoJobs(jobs: map<Tid, Job>, g: Target) {
    forall tid :: tid in jobs ==> jobs[tid].id != g.id
  }

  predicate ProcsServe(cfg: Config, v: View, procs: Procs, g: Target) {
    forall pid :: pid in procs ==> ProcServes(cfg, v, procs[pid], g)
  }

  predicate Serves(cfg: Config, s: State, g: Target) {
    var v := At(s.files, g.id);
    && Get(s.remote, g.id) == Some(g.rec) && Local(cfg, v, g)
    && Carriers(s.threads, v, g) && NoJobs(s.jobs, g) && ProcsServe(cfg, v, s.procs, g)
  }

  predicate Proper(cfg: Config, g: Target) {
    FillEntry(cfg, g.rec) == g.entry
  }

  // ---------------------------------------------------------------- one handler action

  /** Once in place, the bytes stay. */
  predicate BytesStay(v: View, w: View, g: Target) {
    HasBytes(v, g) ==> HasBytes(w, g)
  }

  predicate CarrierEffect(t: Thread, v: View, g: Target, e: Effect) {
    var w := ApplyView(v, e.op);
    t.req.actionID == g.id ==> Carrier(e.t, w, g) && BytesStay(v, w, g) && e.store.None? && e.spawn.None?
  }

  lemma LookupCarries(cfg: Config, t: Thread, v: View, rem: Option<Record>, c: Choice, g: Target)
    requires Proper(cfg, g) && PcOk(cfg, t) && Carrier(t, v, g) && LooksUp(t.pc) && Lookup(cfg, t, v, rem, c).Some?
    requires t.req.actionID == g.id ==> rem == Some(g.rec) && Local(cfg, v, g) && Whole(cfg, v)
    ensures CarrierEffect(t, v, g, Lookup(cfg, t, v, rem, c).value)
  {
  }

  lemma WriteDataCarries(cfg: Config, t: Thread, v: View, c: Choice, g: Target)
    requires PcOk(cfg, t) && Carrier(t, v, g) && Progress(cfg, t, v) && WritesData(t.pc) && WriteData(t, c).Some?
    ensures CarrierEffect(t, v, g, WriteData(t, c).value)
  {
  }

  lemma WriteMetaCarries(cfg: Config, t: Thread, v: View, c: Choice, g: Target)
    requires PcOk(cfg, t) && Carrier(t, v, g) && WritesMeta(t.pc) && WriteMeta(cfg, t, c).Some?
    ensures CarrierEffect(t, v, g, WriteMeta(cfg, t, c).value)
  {
  }

  lemma FinishCarries(cfg: Config, t: Thread, v: View, full: bool, c: Choice, g: Target)
    requires PcOk(cfg, t) && Carrier(t, v, g) && Finish(cfg, t, full, c).Some?
    ensures CarrierEffect(t, v, g, Finish(cfg, t, full, c).value)
  {
  }

  lemma AdvanceCarries(cfg: Config, t: Thread, v: View, rem: Option<Record>, full: bool, c: Choice, g: Target)
    requires Proper(cfg, g) && PcOk(cfg, t) && Carrier(t, v, g) && Progress(cfg, t, v)
    requires Advance(cfg, t, v, rem, full, c).Some?
    requires t.req.actionID == g.id ==> rem == Some(g.rec) && Local(cfg, v, g) && Whole(cfg, v)
    ensures CarrierEffect(t, v, g, Advance(cfg, t, v, rem, full, c).value)
  {
    hide CarrierEffect;
    hide Progress;
    hide Carrier;
    if LooksUp(t.pc) {
      LookupCarries(cfg, t, v, rem, c, g);
    } else if WritesData(t.pc) {
      WriteDataCarries(cfg, t, v, c, g);
    } else if WritesMeta(t.pc) {
      WriteMetaCarries(cfg, t, v, c, g);
    } else {
      FinishCarries(cfg, t, v, full, c, g);
    }
  }

  /** Handlers of other actions have nothing to do with the target. */
  lemma OtherActions(t: Thread, e: Effect, w: View, g: Target)
    requires t.req.actionID != g.id && e.t.req == t.req
    ensures Carrier(e.t, w, g)
  {
  }

  /** What one handler action means for the target; `w` is what it leaves of the target's files. */
  lemma EffectCarries(cfg: Config, s: State, g: Target, tid: Tid, c: Choice, e: Effect)
    requires Inv(cfg, s) && Sound(cfg) && !cfg.readMayFail && Proper(cfg, g) && Serves(cfg, s, g)
    requires tid in s.threads && EffectOf(cfg, s, tid, c) == Some(e)
    ensures var t := s.threads[tid]; var v := At(s.files, g.id);
      var w := At(Updated(s.files, t.req.actionID, e.op), g.id);
      && Carrier(e.t, w, g) && BytesStay(v, w, g) && Local(cfg, w, g)
      && (t.req.actionID == g.id ==> e.store.None? && e.spawn.None?)
  {
    var t := s.threads[tid];
    var id := t.req.actionID;
    EffectIsSafe(cfg, s, tid, c, e);
    Origins.EffectInstalls(cfg, s, tid, c, e);
    UpdatedAt(s.files, id, e.op, g.id);
    assert e.t.req == t.req;
    if id == g.id {
      assert Carrier(t, At(s.files, id), g) && PcOk(cfg, t) && Progress(cfg, t, At(s.files, id));
      assert Whole(cfg, At(s.files, id));
      hide Inv;
      AdvanceCarries(cfg, t, At(s.files, id), Get(s.remote, id), Full(cfg, s.procs[tid.pid]), c, g);
      InstalledIsLocal(cfg, t, At(s.files, id), e, g);
    } else {
      OtherActions(t, e, At(s.files, g.id), g);
    }
    hide *;
  }

  lemma InstalledIsLocal(cfg: Config, t: Thread, v: View, e: Effect, g: Target)
    requires t.req.actionID == g.id && Carrier(t, v, g) && Local(cfg, v, g) && Origins.Installs(cfg, t, v, e)
    ensures Local(cfg, ApplyView(v, e.op), g)
  {
    hide LocalEntry;
    hide ApplyView;
  }

  // ---------------------------------------------------------------- the whole system

  lemma ViewGrows(cfg: Config, threads: Threads, procs: Procs, v: View, w: View, g: Target)
    requires BytesStay(v, w, g) && Carriers(threads, v, g) && ProcsServe(cfg, v, procs, g)
    ensures Carriers(threads, w, g) && ProcsServe(cfg, w, procs, g)
  {
    forall pid | pid in procs ensures ProcServes(cfg, w, procs[pid], g) {
      assert ProcServes(cfg, v, procs[pid], g);
    }
  }

  lemma AnswerHits(cfg: Config, v: View, p: Proc, tid: Tid, t: Thread, e: Effect, g: Target)
    requires ProcServes(cfg, v, p, g) && Carrier(t, v, g) && ThreadOwned(p, tid.index, t)
    requires e.t.pc.Gone? <==> t.pc.Answering?
    ensures ProcServes(cfg, v, AfterMove(cfg, p, tid, t, e), g)
  {
    if e.t.pc.Gone? {
      ResponseHits(cfg, v, t, g);
    }
    hide Hit;
    hide Carrier;
    hide ResponseOf;
  }

  lemma ResponseHits(cfg: Config, v: View, t: Thread, g: Target)
    requires Carrier(t, v, g) && t.pc.Answering?
    ensures Hit(cfg, v, t.req, ResponseOf(cfg, t.req, t.result), g)
  {
  }

  lemma CommitServes(cfg: Config, s: State, g: Target, tid: Tid, e: Effect, w: View)
    requires Serves(cfg, s, g) && tid in s.threads && tid.pid in s.procs
    requires w == At(Updated(s.files, s.threads[tid].req.actionID, e.op), g.id) && Local(cfg, w, g)
    requires Carrier(e.t, w, g)
    requires Carriers(s.threads, w, g) && ProcsServe(cfg, w, s.procs, g)
    requires ProcServes(cfg, w, AfterMove(cfg, s.procs[tid.pid], tid, s.threads[tid], e), g)
    requires s.threads[tid].req.actionID == g.id ==> e.store.None? && e.spawn.None?
    ensures Serves(cfg, Commit(cfg, s, tid, e), g)
  {
    hide Carrier;
    hide ProcServes;
    hide AfterMove;
    hide Local;
    hide Relock;
    hide EventOf;
    hide ApplyView;
  }

  lemma ThreadServes(cfg: Config, s: State, g: Target, tid: Tid, c: Choice)
    requires Inv(cfg, s) && Sound(cfg) && !cfg.readMayFail && Proper(cfg, g) && Serves(cfg, s, g)
    requires StepThread(cfg, s, tid, c).Some?
    ensures Serves(cfg, StepThread(cfg, s, tid, c).value, g)
  {
    var t := s.threads[tid];
    var e := EffectOf(cfg, s, tid, c).value;
    var p := s.procs[tid.pid];
    var v := At(s.files, g.id);
    var w := At(Updated(s.files, t.req.actionID, e.op), g.id);
    EffectIsSafe(cfg, s, tid, c, e);
    EffectCarries(cfg, s, g, tid, c, e);
    ViewGrows(cfg, s.threads, s.procs, v, w, g);
    assert ThreadOwned(p, tid.index, t);
    assert e.t.pc.Gone? <==> t.pc.Answering?;
    hide Inv;
    hide Sound;
    hide SafeEffect;
    hide ProcServes;
    hide Commit;
    hide EffectOf;
    hide Carrier;
    hide Moves;
    AnswerHits(cfg, w, p, tid, t, e, g);
    hide ThreadOwned;
    hide Local;
    hide Updated;
    CommitServes(cfg, s, g, tid, e, w);
  }

  lemma JobServes(cfg: Config, s: State, g: Target, tid: Tid, c: Choice)
    requires Serves(cfg, s, g) && StepJob(s, tid, c).Some?
    ensures Serves(cfg, StepJob(s, tid, c).value, g)
  {
    var e := AdvanceJob(s.jobs[tid], s.procs[tid.pid], tid, c).value;
    var p := s.procs[tid.pid];
    var v := At(s.files, g.id);
    assert e.p.input == p.input && e.p.out == p.out && e.p.phase == p.phase && e.p.next == p.next;
    assert ProcServes(cfg, v, p, g);
    assert ProcServes(cfg, v, e.p, g);
    hide AdvanceJob;
    hide ProcServes;
    hide Local;
    hide Carriers;
  }

  lemma ProcHits(cfg: Config, v: View, p: Proc, pid: nat, idle: bool, g: Target)
    requires ProcOk(p) && AdvanceProc(p, pid, idle).Some? && ProcServes(cfg, v, p, g)
    ensures var e := AdvanceProc(p, pid, idle).value;
      ProcServes(cfg, v, e.p, g) && (e.spawn.Some? ==> Carrier(e.spawn.value, v, g))
  {
    hide HasBytes;
  }

  lemma ProcStepServes(cfg: Config, s: State, g: Target, pid: nat)
    requires Inv(cfg, s) && Serves(cfg, s, g) && StepProc(s, pid).Some?
    ensures Serves(cfg, StepProc(s, pid).value, g)
  {
    assert ProcServes(cfg, At(s.files, g.id), s.procs[pid], g) && ProcOk(s.procs[pid]);
    ProcHits(cfg, At(s.files, g.id), s.procs[pid], pid, Idle(s.threads, pid), g);
    hide Inv;
    hide AdvanceProc;
    hide ProcServes;
    hide Carrier;
    hide Local;
  }

  lemma KillServes(cfg: Config, s: State, g: Target, pid: nat)
    requires Serves(cfg, s, g) && StepKill(s, pid).Some?
    ensures Serves(cfg, StepKill(s, pid).value, g)
  {
    var p := s.procs[pid];
    assert ProcServes(cfg, At(s.files, g.id), p, g);
    assert ProcServes(cfg, At(s.files, g.id), p.(phase := Dead), g);
    hide ProcServes;
    hide Carrier;
    hide Local;
  }

  lemma StepServes(cfg: Config, s: State, g: Target, l: Label)
    requires Inv(cfg, s) && Sound(cfg) && !cfg.readMayFail && Proper(cfg, g) && Serves(cfg, s, g)
    requires Step(cfg, s, l).Some?
    ensures Serves(cfg, Step(cfg, s, l).value, g)
  {
    hide Serves;
    hide Inv;
    hide Sound;
    match l
    case ThreadL(tid, c) => ThreadServes(cfg, s, g, tid, c);
    case JobL(tid, c) => JobServes(cfg, s, g, tid, c);
    case ProcL(pid) => ProcStepServes(cfg, s, g, pid);
    case KillL(pid) => KillServes(cfg, s, g, pid);
  }

  lemma {:induction false} RunServes(cfg: Config, s: State, g: Target, ls: seq<Label>)
    requires Inv(cfg, s) && Sound(cfg) && !cfg.readMayFail && Proper(cfg, g) && Serves(cfg, s, g)
    requires Run(cfg, s, ls).Some?
    ensures Serves(cfg, Run(cfg, s, ls).value, g)
    decreases |ls|
  {
    hide Serves;
    hide Inv;
    hide Sound;
    hide Step;
    if ls != [] {
      StepServes(cfg, s, g, ls[0]);
      StepKeepsInv(cfg, s, ls[0]);
      RunServes(cfg, Step(cfg, s, ls[0]).value, g, ls[1..]);
    }
  }

  /** A server that starts with nothing readable under the target's action ID. */
  lemma EmptyServes(cfg: Config, s: State, g: Target)
    requires Init(cfg, s) && Get(s.remote, g.id) == Some(g.rec) && LocalEntry(cfg, At(s.files, g.id)).None?
    requires forall pid :: pid in s.procs ==> GetsOnly(s.procs[pid], g.id)
    ensures Serves(cfg, s, g)
  {
    forall pid | pid in s.procs ensures ProcServes(cfg, At(s.files, g.id), s.procs[pid], g) {
      assert FreshProc(s.procs[pid]) && GetsOnly(s.procs[pid], g.id);
    }
  }

  // ---------------------------------------------------------------- theorems

  /** An answer to a GET of `id`. */
  predicate Answers(r: State, pid: nat, i: nat, id: ActionID) {
    && pid in r.procs && i < |r.procs[pid].out| && r.procs[pid].out[i].index < |r.procs[pid].input|
    && r.procs[pid].input[r.procs[pid].out[i].index].actionID == id
    && r.procs[pid].input[r.procs[pid].out[i].index].cmd == CmdGet
  }

  /** The answer tells of `e`, and the file it names has e's bytes. */
  predicate Tells(cfg: Config, r: State, a: Response, id: ActionID, e: Entry) {
    && !a.miss && a.outputID == e.outputID && a.size == e.size && a.time == Some(e.time)
    && a.diskPath == Some(cfg.path(id))
    && At(r.files, id).data == Some(e.bytes)
  }

  /** A server with no local entry for an action that it is never told to PUT. */
  predicate Downloads(cfg: Config, r0: State, id: ActionID) {
    LocalEntry(cfg, At(r0.files, id)).None? && forall p :: p in r0.procs ==> GetsOnly(r0.procs[p], id)
  }

  /**
    In every run of such a server every GET of the action, the first and all later ones, fails or is a hit with what
    the remote object fills in, and the bytes are in the file it names, whether or not metadata could be written.
   */
  lemma GetsServeTheRecord(cfg: Config, r0: State, ks: seq<Label>, id: ActionID, rec: Record, pid: nat, i: nat)
    requires Sound(cfg) && !cfg.readMayFail && Init(cfg, r0) && Run(cfg, r0, ks).Some?
    requires Downloads(cfg, r0, id) && Get(r0.remote, id) == Some(rec) && Answers(Run(cfg, r0, ks).value, pid, i, id)
    ensures var r := Run(cfg, r0, ks).value; var a := r.procs[pid].out[i].response;
      a.err.None? ==> exists e :: FillsIn(cfg, rec, e) && Tells(cfg, r, a, id, e)
  {
    var g := Target(id, rec, FillEntry(cfg, rec));
    var r := Run(cfg, r0, ks).value;
    InitHasInv(cfg, r0);
    EmptyServes(cfg, r0, g);
    RunServes(cfg, r0, g, ks);
    hide Run;
    hide Init;
    hide Sound;
    assert ProcServes(cfg, At(r.files, id), r.procs[pid], g);
    assert Hit(cfg, At(r.files, id), r.procs[pid].input[r.procs[pid].out[i].index], r.procs[pid].out[i].response, g);
    FillEntryFills(cfg, rec);
    hide FillEntry;
    hide FillsIn;
  }

  /** With the same compression setting both servers take a remote object for the same entry. */
  lemma SameFill(cfg: Config, cfg2: Config, rec: Record, e: Entry, f: Entry)
    requires cfg2.decompress == cfg.decompress && cfg2.compression == cfg.compression
    requires FillsIn(cfg, rec, e) && FillsIn(cfg2, rec, f)
    ensures e == f
  {
  }

  /** The first server's run changed the remote store under `id`, and the second one starts there. */
  ghost predicate Shared(cfg: Config, s0: State, ls: seq<Label>, cfg2: Config, r0: State, id: ActionID) {
    && Init(cfg, s0) && Run(cfg, s0, ls).Some?
    && cfg2.compress == cfg.compress && cfg2.decompress == cfg.decompress
    && r0.remote == Run(cfg, s0, ls).value.remote && id in r0.remote && Get(r0.remote, id) != Get(s0.remote, id)
  }

  /** What it left there is the upload of a PUT that it was told. */
  lemma SharedRecord(cfg: Config, s0: State, ls: seq<Label>, cfg2: Config, r0: State, id: ActionID)
      returns (e: Entry, rec: Record)
    requires Shared(cfg, s0, ls, cfg2, r0, id)
    ensures PutOf(s0.procs, id, e) && rec == r0.remote[id] && Sends(cfg, e, Sent(rec)) && Fits(e.size, e.bytes)
  {
    Sources.RemotesAreWhole(cfg, s0, ls, id);
    rec := r0.remote[id];
    assert RemoteFrom(cfg, s0, id, rec);
    e :| PutOf(s0.procs, id, e) && Sends(cfg, e, Sent(rec));
    Sources.PutOfFits(cfg, s0, id, e);
    hide Run;
    hide Sends;
    hide PutOf;
  }

  /** The second server, and an answer it gave to a GET of `id` that did not fail. */
  ghost predicate Served(cfg: Config, r0: State, ks: seq<Label>, id: ActionID, pid: nat, i: nat) {
    && Sound(cfg) && !cfg.readMayFail && Init(cfg, r0) && Run(cfg, r0, ks).Some?
    && Downloads(cfg, r0, id) && Answers(Run(cfg, r0, ks).value, pid, i, id)
    && Run(cfg, r0, ks).value.procs[pid].out[i].response.err.None?
  }

  /**
    With the same compression setting, every GET of the uploaded action that does not fail is a hit with the output
    ID, size and bytes of one PUT that the first server was told, one path, and the remote object's time. On the first
    server anything may fail, and output IDs may be empty.
   */
  lemma UploadsAreServed(cfg: Config, s0: State, ls: seq<Label>, cfg2: Config, r0: State, ks: seq<Label>, id: ActionID,
                         pid: nat, i: nat)
      returns (e: Entry)
    requires Lossless(cfg) && Shared(cfg, s0, ls, cfg2, r0, id) && cfg2.compression == cfg.compression
    requires Served(cfg2, r0, ks, id, pid, i)
    ensures PutOf(s0.procs, id, e)
    ensures var r := Run(cfg2, r0, ks).value;
      Tells(cfg2, r, r.procs[pid].out[i].response, id, e.(time := r0.remote[id].time))
  {
    var rec;
    e, rec := SharedRecord(cfg, s0, ls, cfg2, r0, id);
    Sources.FillInvertsUpload(cfg, e, rec);
    GetsServeTheRecord(cfg2, r0, ks, id, rec, pid, i);
    var f :| FillsIn(cfg2, rec, f) && Tells(cfg2, Run(cfg2, r0, ks).value,
        Run(cfg2, r0, ks).value.procs[pid].out[i].response, id, f);
    SameFill(cfg, cfg2, rec, e.(time := rec.time), f);
    hide *;
  }

  /**
    If the first server's metadata is reliable and output IDs are not empty, that is the entry it has itself, readable
    under the action when its run ends.
   */
  lemma OwnEntryIsServed(cfg: Config, s0: State, ls: seq<Label>, cfg2: Config, r0: State, ks: seq<Label>, id: ActionID,
                         pid: nat, i: nat)
    requires Lossless(cfg) && Shared(cfg, s0, ls, cfg2, r0, id) && cfg2.compression == cfg.compression
    requires Sound(cfg) && Reliable(cfg) && Named(s0.procs, s0.remote) && Served(cfg2, r0, ks, id, pid, i)
    ensures var e := LocalEntry(cfg, At(Run(cfg, s0, ls).value.files, id)); var r := Run(cfg2, r0, ks).value;
      e.Some? && Tells(cfg2, r, r.procs[pid].out[i].response, id, e.value.(time := r0.remote[id].time))
  {
    RemoteFollowsLocal(cfg, s0, ls, id);
    var e := LocalEntry(cfg, At(Run(cfg, s0, ls).value.files, id)).value;
    var rec := r0.remote[id];
    Sources.FillInvertsUpload(cfg, e, rec);
    GetsServeTheRecord(cfg2, r0, ks, id, rec, pid, i);
    var f :| FillsIn(cfg2, rec, f) && Tells(cfg2, Run(cfg2, r0, ks).value,
        Run(cfg2, r0, ks).value.procs[pid].out[i].response, id, f);
    SameFill(cfg, cfg2, rec, e.(time := rec.time), f);
    hide Run;
    hide Sound;
    hide Init;
    hide FillEntry;
    hide Sends;
    hide LocalEntry;
    hide Tells;
  }

  /**
    What a server with the other compression setting takes an upload for: a plain server the compressed bytes for the
    output, a compressing one whatever the plain bytes decompress to, if they do.
   */
  function Received(cfg: Config, e: Entry): Option<Entry>
    requires CanUpload(cfg, e)
  {
    if e.size <= 0 then Some(e)
    else if cfg.compression then Some(Entry(e.outputID, cfg.compress(e.bytes).value, |cfg.compress(e.bytes).value|,
        e.time))
    else
      match cfg.decompress(e.bytes)
      case None => None
      case Some(d) => Some(Entry(e.outputID, d, |d|, e.time))
  }

  lemma OtherSettingFills(cfg: Config, cfg2: Config, e: Entry, rec: Record, f: Entry)
    requires Fits(e.size, e.bytes) && Sends(cfg, e, Sent(rec))
    requires cfg2.decompress == cfg.decompress && cfg2.compression != cfg.compression
    ensures FillsIn(cfg2, rec, f) ==> CanUpload(cfg, e) && Received(cfg, e.(time := rec.time)) == Some(f)
  {
  }

  /**
    The compression setting is not part of the key. With the other setting every GET of an uploaded action fails or is
    a hit on what the upload is taken for; it always fails when plain bytes do not decompress. So such a server serves
    the upload itself exactly when the stored bytes mean the same to both.
   */
  lemma OtherSettingServes(cfg: Config, s0: State, ls: seq<Label>, cfg2: Config, r0: State, ks: seq<Label>,
                           id: ActionID, pid: nat, i: nat)
      returns (e: Entry)
    requires Shared(cfg, s0, ls, cfg2, r0, id) && cfg2.compression != cfg.compression
    requires Served(cfg2, r0, ks, id, pid, i)
    ensures PutOf(s0.procs, id, e) && CanUpload(cfg, e)
    ensures var r := Run(cfg2, r0, ks).value; var a := r.procs[pid].out[i].response;
      var f := e.(time := r0.remote[id].time);
      && Received(cfg, f).Some? && Tells(cfg2, r, a, id, Received(cfg, f).value)
      && (Tells(cfg2, r, a, id, f) <==> Received(cfg, f) == Some(f))
  {
    var rec;
    e, rec := SharedRecord(cfg, s0, ls, cfg2, r0, id);
    GetsServeTheRecord(cfg2, r0, ks, id, rec, pid, i);
    var f :| FillsIn(cfg2, rec, f) && Tells(cfg2, Run(cfg2, r0, ks).value,
        Run(cfg2, r0, ks).value.procs[pid].out[i].response, id, f);
    OtherSettingFills(cfg, cfg2, e, rec, f);
    hide Run;
    hide Sound;
    hide Init;
    hide FillEntry;
    hide PutPayload;
    hide LocalEntry;
    hide Received;
    hide PutOf;
  }
}
