/**
  What DoWithLock's callback does to the files of its action ID, as one relation between the files before and after.
  Under every interleaving the handlers of the step machine meet it, and so do the methods of Server.
 */
module LockedSection {
  import opened Basics
  import opened Disk
  import opened Protocol
  import opened Exclusion

  /** writeWithMetadata succeeded on `e`; `logged` says that its metadata could not be written. */
  predicate WroteEntry(cfg: Config, v: View, w: View, e: Entry, logged: bool) {
    if logged then w == v.(data := Some(e.bytes), dataTmp := None, metaTmp := w.metaTmp)
    else w == v.(data := Some(e.bytes), dataTmp := None, meta := Some(MetaText(cfg, e)), metaTmp := None)
  }

  predicate Durable(e: Entry, logged: bool) {
    !logged && e.outputID != []
  }

  /** A PUT stored its own body under its own output ID. */
  predicate PutWrote(cfg: Config, r: Request, v: View, w: View, e: Entry, logged: bool) {
    StoresBody(r, e) && WroteEntry(cfg, v, w, e, logged)
  }

  predicate NotReadable(cfg: Config, v: View) {
    cfg.readMayFail || LocalEntry(cfg, v).None?
  }

  /**
    The callback for request `r` found files `v`, left files `w`, and returned `res`; `rem` is the remote object it
    saw, if it asked.
   */
  ghost predicate Outcome(cfg: Config, r: Request, v: View, rem: Option<Record>, w: View, res: Result) {
    match res
    case Failed(LockFailed) => w == v
    case Failed(BodyShort) => NotReadable(cfg, v) && w == v && r.cmd == CmdPut && ShortBody(r)
    case Failed(BackendGetFailed) => NotReadable(cfg, v) && w == v && r.cmd != CmdPut
    case Failed(DecompressFailed) =>
      NotReadable(cfg, v) && w == v && r.cmd != CmdPut && rem.Some? && cfg.compression && rem.value.size > 0
      && cfg.decompress(rem.value.body).None?
    case Failed(LocalWriteFailed) => NotReadable(cfg, v) && w == v.(dataTmp := w.dataTmp)
    case Failed(CompressFailed) => NotReadable(cfg, v) && exists e, logged :: PutWrote(cfg, r, v, w, e, logged)
    case Failed(UnknownCommand) => false
    case Absent => NotReadable(cfg, v) && w == v && r.cmd != CmdPut && rem.None?
    case Stored(p) => r.cmd == CmdPut && PutOutcome(cfg, r, v, w, p)
    case Found(e, durable) => r.cmd != CmdPut && GetOutcome(cfg, v, rem, w, e, durable)
  }

  /** A PUT finds an entry and leaves it, or writes its own. */
  ghost predicate PutOutcome(cfg: Config, r: Request, v: View, w: View, p: Option<Entry>) {
    || (p.Some? && LocalEntry(cfg, v) == p && w == v)
    || (NotReadable(cfg, v) && exists e, logged ::
          PutWrote(cfg, r, v, w, e, logged) && p == if Durable(e, logged) then Some(e) else None)
  }

  /** A GET finds an entry and leaves it, or writes what it downloaded. */
  ghost predicate GetOutcome(cfg: Config, v: View, rem: Option<Record>, w: View, e: Entry, durable: bool) {
    || (durable && LocalEntry(cfg, v) == Some(e) && w == v)
    || (NotReadable(cfg, v) && Fills(cfg, rem, e)
        && exists logged :: WroteEntry(cfg, v, w, e, logged) && durable == Durable(e, logged))
  }

  /** The entry is the whole of what the remote object fills in. */
  predicate Fills(cfg: Config, rem: Option<Record>, e: Entry) {
    rem.Some? && FillsIn(cfg, rem.value, e)
  }

  // ---------------------------------------------------------------- inside the callback

  predicate DataDone(t: Thread, v0: View, v: View) {
    v == v0.(data := Some(t.entry.bytes), dataTmp := None, metaTmp := v.metaTmp)
  }

  /** How far the callback, which found `v0` and saw `rem`, has brought the files. */
  ghost predicate Stage(cfg: Config, t: Thread, v0: View, rem: Option<Record>, v: View) {
    && (t.req.cmd != CmdPut && (WritesData(t.pc) || WritesMeta(t.pc)) ==> Fills(cfg, rem, t.entry))
    && (t.req.cmd == CmdPut && (WritesData(t.pc) || WritesMeta(t.pc)) ==>
          StoresBody(t.req, t.entry))
    && (!t.pc.Checking? && !t.pc.Unlocking? && !AtRemote(t.pc) ==> NotReadable(cfg, v0))
    && match t.pc
       case Copying(n) => n <= |t.entry.bytes| && v == v0.(dataTmp := Some(t.entry.bytes[..n]))
       case Renaming => v == v0.(dataTmp := Some(t.entry.bytes))
       case Cleaning(ok) => if ok then v == v0.(data := Some(t.entry.bytes),
           dataTmp := None) else v == v0.(dataTmp := v.dataTmp)
       case MetaCreating => v == v0.(data := Some(t.entry.bytes), dataTmp := None)
       case MetaCopying(n) => DataDone(t, v0, v) && n <= |MetaText(cfg, t.entry)| && v.metaTmp == Some(MetaText(cfg,
           t.entry)[..n])
       case MetaRenaming => DataDone(t, v0, v) && v.metaTmp == Some(MetaText(cfg, t.entry))
       case MetaCleaning => DataDone(t, v0, v)
       case Unlocking => Outcome(cfg, t.req, v0, rem, v, t.result)
       case _ =>
         if AtRemote(t.pc) then NotReadable(cfg, v0) && Uploading(cfg, t, v0, v) else v == v0
  }

  /** A PUT past its local half. */
  ghost predicate Uploading(cfg: Config, t: Thread, v0: View, v: View) {
    t.req.cmd == CmdPut && t.result.Stored? && exists e, logged ::
      PutWrote(cfg, t.req, v0, v, e, logged) && t.result.promise == if Durable(e, logged) then Some(e) else None
  }

  lemma CheckStage(cfg: Config, t: Thread, v0: View, seen: Option<Record>, v: View, rem: Option<Record>, c: Choice)
    requires Stage(cfg, t, v0, seen, v) && PcOk(cfg, t) && t.pc.Checking? && Lookup(cfg, t, v, rem, c).Some?
    ensures var e := Lookup(cfg, t, v, rem, c).value; Stage(cfg, e.t, v0, seen, ApplyView(v, e.op))
  {
    if LocalEntry(cfg, v).Some? {
      FoundOutcomes(cfg, t.req, v, seen);
    }
    hide PutOutcome;
    hide GetOutcome;
    hide LocalEntry;
  }

  lemma BodyStage(cfg: Config, t: Thread, v0: View, seen: Option<Record>, v: View, rem: Option<Record>, c: Choice)
    requires Stage(cfg, t, v0, seen, v) && PcOk(cfg, t) && t.pc.ReadingBody? && Lookup(cfg, t, v, rem, c).Some?
    ensures var e := Lookup(cfg, t, v, rem, c).value; Stage(cfg, e.t, v0, seen, ApplyView(v, e.op))
  {
    PutEntryStores(t.req, c.now);
    hide PutEntry;
    hide StoresBody;
    hide NotReadable;
  }

  lemma FetchStage(cfg: Config, t: Thread, v0: View, seen: Option<Record>, v: View, rem: Option<Record>, c: Choice)
    requires (t.pc.Fetching? ==> rem == seen) && Stage(cfg, t, v0, seen, v) && PcOk(cfg, t)
    requires (t.pc.Calling? || t.pc.Fetching?) && Lookup(cfg, t, v, rem, c).Some?
    ensures var e := Lookup(cfg, t, v, rem, c).value; Stage(cfg, e.t, v0, seen, ApplyView(v, e.op))
  {
    if rem.Some? {
      FillEntryFills(cfg, rem.value);
    }
    hide FillEntry;
    hide FillsIn;
    hide NotReadable;
  }

  lemma LookupStage(cfg: Config, t: Thread, v0: View, seen: Option<Record>, v: View, rem: Option<Record>, c: Choice)
    requires (t.pc.Fetching? ==> rem == seen) && Stage(cfg, t, v0, seen, v)
    requires PcOk(cfg, t) && LooksUp(t.pc) && !t.pc.Locking? && Lookup(cfg, t, v, rem, c).Some?
    ensures var e := Lookup(cfg, t, v, rem, c).value; Stage(cfg, e.t, v0, seen, ApplyView(v, e.op))
  {
    hide Stage;
    hide Lookup;
    if t.pc.Checking? {
      CheckStage(cfg, t, v0, seen, v, rem, c);
    } else if t.pc.ReadingBody? {
      BodyStage(cfg, t, v0, seen, v, rem, c);
    } else {
      FetchStage(cfg, t, v0, seen, v, rem, c);
    }
  }

  /** What is found is left as it is. */
  lemma FoundOutcomes(cfg: Config, r: Request, v: View, seen: Option<Record>)
    requires LocalEntry(cfg, v).Some?
    ensures PutOutcome(cfg, r, v, v, LocalEntry(cfg, v)) && GetOutcome(cfg, v, seen, v, LocalEntry(cfg, v).value, true)
  {
    hide NotReadable;
  }

  lemma WriteDataStage(cfg: Config, t: Thread, v0: View, seen: Option<Record>, v: View, c: Choice)
    requires Stage(cfg, t, v0, seen, v) && WritesData(t.pc) && WriteData(t, c).Some?
    ensures var e := WriteData(t, c).value; Stage(cfg, e.t, v0, seen, ApplyView(v, e.op))
  {
    assert t.entry.bytes[..|t.entry.bytes|] == t.entry.bytes;
  }

  /** writeWithMetadata returns. */
  lemma WrittenStage(cfg: Config, t: Thread, v0: View, seen: Option<Record>, v: View, ok: bool)
    requires WritesMeta(t.pc) && PcOk(cfg, t) && NotReadable(cfg, v0)
    requires if t.req.cmd == CmdPut then StoresBody(t.req, t.entry) else Fills(cfg, seen, t.entry)
    requires WroteEntry(cfg, v0, v, t.entry, !ok)
    ensures Stage(cfg, Written(t, ok), v0, seen, v)
  {
    var u := Written(t, ok);
    if t.req.cmd == CmdPut {
      assert PutWrote(cfg, t.req, v0, v, t.entry, !ok);
      assert Uploading(cfg, u, v0, v);
    } else {
      assert WroteEntry(cfg, v0, v, t.entry, !ok);
    }
  }

  lemma WriteMetaStage(cfg: Config, t: Thread, v0: View, seen: Option<Record>, v: View, c: Choice)
    requires Stage(cfg, t, v0, seen, v) && PcOk(cfg, t) && WritesMeta(t.pc) && WriteMeta(cfg, t, c).Some?
    ensures var e := WriteMeta(cfg, t, c).value; Stage(cfg, e.t, v0, seen, ApplyView(v, e.op))
  {
    var text := MetaText(cfg, t.entry);
    assert text[..|text|] == text;
    var e := WriteMeta(cfg, t, c).value;
    var w := ApplyView(v, e.op);
    if e.t == Written(t, t.pc.MetaRenaming? && c.Go?) {
      assert WroteEntry(cfg, v0, w, t.entry, !(t.pc.MetaRenaming? && c.Go?));
      WrittenStage(cfg, t, v0, seen, w, t.pc.MetaRenaming? && c.Go?);
    }
  }

  lemma UploadingEnds(cfg: Config, t: Thread, v0: View, seen: Option<Record>, v: View)
    requires Uploading(cfg, t, v0, v) && NotReadable(cfg, v0)
    ensures Outcome(cfg, t.req, v0, seen, v, t.result) && Outcome(cfg, t.req, v0, seen, v, Failed(CompressFailed))
  {
    hide PutWrote;
    hide NotReadable;
  }

  lemma FinishShape(cfg: Config, t: Thread, full: bool, c: Choice)
    requires AtRemote(t.pc) && Finish(cfg, t, full, c).Some?
    ensures var e := Finish(cfg, t, full, c).value;
      && e.op.Nop? && e.t.req == t.req
      && ((AtRemote(e.t.pc) && e.t.result == t.result)
          || (e.t.pc.Unlocking? && (e.t.result == t.result || e.t.result == Failed(CompressFailed))))
  {
  }

  lemma FinishStage(cfg: Config, t: Thread, v0: View, seen: Option<Record>, v: View, full: bool, c: Choice)
    requires Stage(cfg, t, v0, seen, v) && AtRemote(t.pc) && Finish(cfg, t, full, c).Some?
    ensures var e := Finish(cfg, t, full, c).value; Stage(cfg, e.t, v0, seen, ApplyView(v, e.op))
  {
    FinishShape(cfg, t, full, c);
    UploadingEnds(cfg, t, v0, seen, v);
    hide Finish;
    hide Outcome;
    hide PutWrote;
    hide NotReadable;
  }

  lemma AdvanceStage(cfg: Config, t: Thread, v0: View, seen: Option<Record>, v: View, rem: Option<Record>, full: bool,
                     c: Choice)
    requires (t.pc.Fetching? ==> rem == seen) && Stage(cfg, t, v0, seen, v)
    requires PcOk(cfg, t) && InSection(t.pc) && !t.pc.Unlocking? && Advance(cfg, t, v, rem, full, c).Some?
    ensures var e := Advance(cfg, t, v, rem, full, c).value; Stage(cfg, e.t, v0, seen, ApplyView(v, e.op))
  {
    hide Stage;
    if LooksUp(t.pc) {
      LookupStage(cfg, t, v0, seen, v, rem, c);
    } else if WritesData(t.pc) {
      WriteDataStage(cfg, t, v0, seen, v, c);
    } else if WritesMeta(t.pc) {
      WriteMetaStage(cfg, t, v0, seen, v, c);
    } else {
      FinishStage(cfg, t, v0, seen, v, full, c);
    }
  }

  // ---------------------------------------------------------------- under interleaving

  /** The handler has given up its lock. */
  predicate Left(s: State, tid: Tid) {
    tid in s.threads ==> s.threads[tid].pc.Answering?
  }

  lemma OnlyUnlockingLeaves(cfg: Config, t: Thread, v: View, rem: Option<Record>, full: bool, c: Choice)
    requires Advance(cfg, t, v, rem, full, c).Some? && InSection(t.pc)
    ensures var u := Advance(cfg, t, v, rem, full, c).value.t;
      u.pc.Answering? <==> t.pc.Unlocking?
    ensures InSection(Advance(cfg, t, v, rem, full, c).value.t.pc) || t.pc.Unlocking?
  {
  }

  /** An action by anybody else leaves the files of a locked action ID alone. */
  lemma OthersKeepOut(cfg: Config, s: State, tid: Tid, x: Tid, c: Choice)
    requires Base(cfg, s) && tid in s.threads && InSection(s.threads[tid].pc) && x != tid
    requires StepThread(cfg, s, x, c).Some?
    ensures var u := StepThread(cfg, s, x, c).value;
      tid in u.threads && u.threads[tid] == s.threads[tid]
      && At(u.files, s.threads[tid].req.actionID) == At(s.files, s.threads[tid].req.actionID)
  {
    var t := s.threads[x];
    var e := EffectOf(cfg, s, x, c).value;
    AdvanceMoves(cfg, t, At(s.files, t.req.actionID), Get(s.remote, t.req.actionID), Full(cfg, s.procs[x.pid]), c);
    hide Advance;
    if InSection(t.pc) && t.req.actionID == s.threads[tid].req.actionID {
      MutualExclusion(cfg, s, tid, x);
    }
    hide Base;
    hide PcOk;
    assert e.op.Nop? || t.req.actionID != s.threads[tid].req.actionID;
  }

  /** The handler's own action takes the callback one stage further, or ends it. */
  lemma OwnStepStage(cfg: Config, s: State, v0: View, seen: Option<Record>, tid: Tid, c: Choice)
    requires Base(cfg, s) && tid in s.threads && InSection(s.threads[tid].pc) && StepThread(cfg, s, tid, c).Some?
    requires s.threads[tid].pc.Fetching? ==> Get(s.remote, s.threads[tid].req.actionID) == seen
    requires Stage(cfg, s.threads[tid], v0, seen, At(s.files, s.threads[tid].req.actionID))
    ensures var u := StepThread(cfg, s, tid, c).value; var t := s.threads[tid];
      if t.pc.Unlocking? then tid in u.threads && u.threads[tid].pc.Answering?
      else tid in u.threads && InSection(u.threads[tid].pc) && u.threads[tid].req == t.req
           && Stage(cfg, u.threads[tid], v0, seen, At(u.files, t.req.actionID))
  {
    var t := s.threads[tid];
    var id := t.req.actionID;
    var e := EffectOf(cfg, s, tid, c).value;
    assert PcOk(cfg, t);
    AdvanceMoves(cfg, t, At(s.files, id), Get(s.remote, id), Full(cfg, s.procs[tid.pid]), c);
    OnlyUnlockingLeaves(cfg, t, At(s.files, id), Get(s.remote, id), Full(cfg, s.procs[tid.pid]), c);
    if !t.pc.Unlocking? {
      AdvanceStage(cfg, t, v0, seen, At(s.files, id), Get(s.remote, id), Full(cfg, s.procs[tid.pid]), c);
    }
    hide Advance;
    hide Stage;
    hide Base;
    hide PcOk;
    assert At(Commit(cfg, s, tid, e).files, id) == ApplyView(At(s.files, id), e.op);
  }

  /** The handler stays inside the callback at its stage, or is out of it for good. */
  ghost predicate Tracked(cfg: Config, s: State, v0: View, seen: Option<Record>, tid: Tid, r: Request) {
    && tid.pid in s.procs && tid.index < s.procs[tid.pid].next
    && (Left(s, tid)
        || (tid in s.threads && InSection(s.threads[tid].pc) && s.threads[tid].req == r
            && Stage(cfg, s.threads[tid], v0, seen, At(s.files, r.actionID))))
  }

  lemma AnsweringEnds(cfg: Config, t: Thread, v: View, rem: Option<Record>, full: bool, c: Choice)
    requires t.pc.Answering? && Advance(cfg, t, v, rem, full, c).Some?
    ensures Advance(cfg, t, v, rem, full, c).value.t.pc.Gone?
  {
  }

  lemma LeftStaysLeft(cfg: Config, s: State, tid: Tid, x: Tid, c: Choice)
    requires Base(cfg, s) && Left(s, tid) && StepThread(cfg, s, x, c).Some?
    ensures Left(StepThread(cfg, s, x, c).value, tid)
  {
    hide Base;
    if x == tid {
      var t := s.threads[x];
      AnsweringEnds(cfg, t, At(s.files, t.req.actionID), Get(s.remote, t.req.actionID), Full(cfg, s.procs[x.pid]), c);
    }
    hide Advance;
  }

  lemma ThreadTracked(cfg: Config, s: State, v0: View, seen: Option<Record>, tid: Tid, r: Request, x: Tid, c: Choice)
    requires Base(cfg, s) && Tracked(cfg, s, v0, seen, tid, r) && StepThread(cfg, s, x, c).Some?
    requires tid in s.threads && s.threads[tid].pc.Fetching? ==> Get(s.remote, r.actionID) == seen
    ensures Tracked(cfg, StepThread(cfg, s, x, c).value, v0, seen, tid, r)
  {
    var u := StepThread(cfg, s, x, c).value;
    assert u.procs.Keys == s.procs.Keys && u.procs[tid.pid].next == s.procs[tid.pid].next by {
      hide Base;
      hide Advance;
      hide Stage;
    }
    hide StepThread;
    hide Stage;
    if Left(s, tid) {
      LeftStaysLeft(cfg, s, tid, x, c);
    } else if x == tid {
      OwnStepStage(cfg, s, v0, seen, tid, c);
    } else {
      OthersKeepOut(cfg, s, tid, x, c);
    }
  }

  lemma ProcTracked(cfg: Config, s: State, v0: View, seen: Option<Record>, tid: Tid, r: Request, pid: nat)
    requires Tracked(cfg, s, v0, seen, tid, r) && StepProc(s, pid).Some?
    ensures Tracked(cfg, StepProc(s, pid).value, v0, seen, tid, r)
  {
    var p := s.procs[pid];
    var e := AdvanceProc(p, pid, Idle(s.threads, pid)).value;
    assert p.next <= e.p.next;
    hide AdvanceProc;
    hide Stage;
  }

  lemma StepTracked(cfg: Config, s: State, v0: View, seen: Option<Record>, tid: Tid, r: Request, l: Label)
    requires Base(cfg, s) && Tracked(cfg, s, v0, seen, tid, r) && Step(cfg, s, l).Some?
    requires tid in s.threads && s.threads[tid].pc.Fetching? ==> Get(s.remote, r.actionID) == seen
    ensures Tracked(cfg, Step(cfg, s, l).value, v0, seen, tid, r)
  {
    hide Stage;
    match l
    case ThreadL(x, c) => ThreadTracked(cfg, s, v0, seen, tid, r, x, c);
    case JobL(x, c) =>
      hide Base;
      assert AdvanceJob(s.jobs[x], s.procs[x.pid], x, c).value.p.next == s.procs[x.pid].next;
      hide AdvanceJob;
    case ProcL(pid) => ProcTracked(cfg, s, v0, seen, tid, r, pid);
    case KillL(pid) =>
      hide Base;
  }

  /** At some moment of the run the remote store had `rem` under `id`. */
  predicate RemoteSeen(cfg: Config, s: State, ls: seq<Label>, id: ActionID, rem: Option<Record>)
    decreases |ls|
  {
    || Get(s.remote, id) == rem
    || (ls != [] && Step(cfg, s, ls[0]).Some? && RemoteSeen(cfg, Step(cfg, s, ls[0]).value, ls[1..], id, rem))
  }

  /** Until a GET has its answer from the backend, it does not matter what the answer will be. */
  lemma NotAskedYet(cfg: Config, t: Thread, v0: View, a: Option<Record>, b: Option<Record>, v: View)
    requires LooksUp(t.pc) && Stage(cfg, t, v0, a, v)
    ensures Stage(cfg, t, v0, b, v)
  {
  }

  lemma TrackedAnew(cfg: Config, s: State, v0: View, seen: Option<Record>, tid: Tid, r: Request)
    requires Tracked(cfg, s, v0, seen, tid, r) && tid in s.threads && s.threads[tid].pc.Fetching?
    ensures Tracked(cfg, s, v0, Get(s.remote, r.actionID), tid, r)
  {
    hide Stage;
    if !Left(s, tid) {
      NotAskedYet(cfg, s.threads[tid], v0, seen, Get(s.remote, r.actionID), At(s.files, r.actionID));
    }
  }

  lemma {:induction false} RunTracked(cfg: Config, s: State, v0: View, seen: Option<Record>, tid: Tid, r: Request,
                                      ls: seq<Label>)
      returns (rem: Option<Record>)
    requires Base(cfg, s) && Tracked(cfg, s, v0, seen, tid, r) && Run(cfg, s, ls).Some?
    ensures Tracked(cfg, Run(cfg, s, ls).value, v0, rem, tid, r)
    ensures (rem == seen || RemoteSeen(cfg, s, ls, r.actionID, rem))
    decreases |ls|
  {
    hide Base;
    hide Tracked;
    hide Step;
    rem := seen;
    if ls != [] {
      if tid in s.threads && s.threads[tid].pc.Fetching? {
        TrackedAnew(cfg, s, v0, seen, tid, r);
        rem := Get(s.remote, r.actionID);
      }
      StepTracked(cfg, s, v0, rem, tid, r, ls[0]);
      StepKeepsBase(cfg, s, ls[0]);
      rem := RunTracked(cfg, Step(cfg, s, ls[0]).value, v0, rem, tid, r, ls[1..]);
    }
  }

  /**
    The callback is atomic on its action's files. Whatever other handlers, uploads and processes do between the moment
    a handler gets its lock and the moment it is about to release it, kills included, the files then are related to
    the files it found as if it had run alone, on a remote object that was there at some moment in between.
   */
  lemma CallbackIsAtomic(cfg: Config, s: State, tid: Tid, ls: seq<Label>) returns (rem: Option<Record>)
    requires Base(cfg, s) && tid in s.threads && s.threads[tid].pc.Checking? && Run(cfg, s, ls).Some?
    requires var u := Run(cfg, s, ls).value; tid in u.threads && u.threads[tid].pc.Unlocking?
    ensures RemoteSeen(cfg, s, ls, s.threads[tid].req.actionID, rem)
    ensures var r := s.threads[tid].req; var u := Run(cfg, s, ls).value;
      u.threads[tid].req == r && Outcome(cfg, r, At(s.files, r.actionID), rem, At(u.files, r.actionID),
          u.threads[tid].result)
  {
    var t := s.threads[tid];
    var v0 := At(s.files, t.req.actionID);
    var now := Get(s.remote, t.req.actionID);
    CheckingIsTracked(cfg, s, now, tid);
    rem := RunTracked(cfg, s, v0, now, tid, t.req, ls);
    UnlockingIsOutcome(cfg, Run(cfg, s, ls).value, v0, rem, tid, t.req);
    SeenAtOnce(cfg, s, ls, t.req.actionID);
    hide *;
  }

  lemma SeenAtOnce(cfg: Config, s: State, ls: seq<Label>, id: ActionID)
    ensures RemoteSeen(cfg, s, ls, id, Get(s.remote, id))
  {
  }

  lemma CheckingIsTracked(cfg: Config, s: State, seen: Option<Record>, tid: Tid)
    requires Base(cfg, s) && tid in s.threads && s.threads[tid].pc.Checking?
    ensures Tracked(cfg, s, At(s.files, s.threads[tid].req.actionID), seen, tid, s.threads[tid].req)
  {
    assert ThreadOwned(s.procs[tid.pid], tid.index, s.threads[tid]);
    hide LocksHeld;
    hide PcsOk;
  }

  lemma UnlockingIsOutcome(cfg: Config, s: State, v0: View, seen: Option<Record>, tid: Tid, r: Request)
    requires Tracked(cfg, s, v0, seen, tid, r) && tid in s.threads && s.threads[tid].pc.Unlocking?
    ensures s.threads[tid].req == r && Outcome(cfg, r, v0, seen, At(s.files, r.actionID), s.threads[tid].result)
  {
    hide Outcome;
  }
}
