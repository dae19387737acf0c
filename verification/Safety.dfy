/** Crash safety and first-write-wins of the shared cache directory, over every run. */
module Safety {
  import opened Basics
  import opened Disk
  import opened Protocol
  import opened Exclusion

  /** The handler has looked the action up, found nothing, and has not renamed its metadata yet. */
  predicate Writing(pc: Pc) {
    pc.ReadingBody? || pc.Calling? || pc.Fetching? || WritesData(pc) || WritesMeta(pc)
  }

  predicate HasEntry(pc: Pc) {
    WritesData(pc) || WritesMeta(pc) || pc.Deciding? || pc.PutCalling? || pc.Putting? || pc.Spawning?
  }

  /** The files a writer has got to so far. */
  predicate Progress(cfg: Config, t: Thread, v: View) {
    match t.pc
    case Copying(n) => n <= |t.entry.bytes| && v.dataTmp == Some(t.entry.bytes[..n])
    case Renaming => v.dataTmp == Some(t.entry.bytes)
    case Cleaning(ok) => ok ==> v.data == Some(t.entry.bytes)
    case MetaCreating => v.data == Some(t.entry.bytes)
    case MetaCopying(n) =>
      v.data == Some(t.entry.bytes) && n <= |MetaText(cfg, t.entry)| && v.metaTmp == Some(MetaText(cfg, t.entry)[..n])
    case MetaRenaming => v.data == Some(t.entry.bytes) && v.metaTmp == Some(MetaText(cfg, t.entry))
    case _ => true
  }

  predicate ThreadOk(cfg: Config, t: Thread, v: View) {
    && Framed(t.req)
    && (Writing(t.pc) ==> LocalEntry(cfg, v).None?)
    && (Writing(t.pc) || HasEntry(t.pc) ==> t.req.actionID != [])
    && (HasEntry(t.pc) && t.req.cmd == CmdPut ==> StoresBody(t.req, t.entry))
    && Progress(cfg, t, v)
    && (PromiseOf(t.result).Some? ==> LocalEntry(cfg, v) == PromiseOf(t.result))
  }

  /** First write wins, seen from one action ID: an entry that can be read is still there afterwards. */
  predicate Keeps(cfg: Config, v: View, w: View) {
    LocalEntry(cfg, v).Some? ==> LocalEntry(cfg, w) == LocalEntry(cfg, v)
  }

  /** What one action must leave behind for the handler that made it. */
  predicate SafeEffect(cfg: Config, v: View, e: Effect) {
    var w := ApplyView(v, e.op);
    ThreadOk(cfg, e.t, w) && Whole(cfg, w) && Keeps(cfg, v, w)
  }

  lemma FetchIsSafe(cfg: Config, t: Thread, v: View, rem: Option<Record>, c: Choice)
    requires PcOk(cfg, t) && ThreadOk(cfg, t, v) && Whole(cfg, v)
    requires (t.pc.Fetching? || t.pc.Calling?) && Lookup(cfg, t, v, rem, c).Some?
    ensures SafeEffect(cfg, v, Lookup(cfg, t, v, rem, c).value)
  {
  }

  lemma CheckIsSafe(cfg: Config, t: Thread, v: View, rem: Option<Record>, c: Choice)
    requires !cfg.readMayFail && PcOk(cfg, t) && ThreadOk(cfg, t, v) && Whole(cfg, v)
    requires (t.pc.Locking? || t.pc.Checking? || t.pc.ReadingBody?) && Lookup(cfg, t, v, rem, c).Some?
    ensures SafeEffect(cfg, v, Lookup(cfg, t, v, rem, c).value)
  {
  }

  lemma LookupIsSafe(cfg: Config, t: Thread, v: View, rem: Option<Record>, c: Choice)
    requires !cfg.readMayFail && PcOk(cfg, t) && ThreadOk(cfg, t, v) && Whole(cfg, v)
    requires LooksUp(t.pc) && Lookup(cfg, t, v, rem, c).Some?
    ensures SafeEffect(cfg, v, Lookup(cfg, t, v, rem, c).value)
  {
    hide SafeEffect;
    hide Lookup;
    hide ThreadOk;
    hide PcOk;
    if t.pc.Fetching? || t.pc.Calling? {
      FetchIsSafe(cfg, t, v, rem, c);
    } else {
      CheckIsSafe(cfg, t, v, rem, c);
    }
  }

  lemma WriteDataIsSafe(cfg: Config, t: Thread, v: View, c: Choice)
    requires ThreadOk(cfg, t, v) && Whole(cfg, v)
    requires WritesData(t.pc) && WriteData(t, c).Some?
    ensures SafeEffect(cfg, v, WriteData(t, c).value)
  {
    assert t.entry.bytes[..|t.entry.bytes|] == t.entry.bytes;
  }

  lemma WriteMetaIsSafe(cfg: Config, t: Thread, v: View, c: Choice)
    requires Sound(cfg) && ThreadOk(cfg, t, v) && Whole(cfg, v)
    requires WritesMeta(t.pc) && WriteMeta(cfg, t, c).Some?
    ensures SafeEffect(cfg, v, WriteMeta(cfg, t, c).value)
  {
    var text := MetaText(cfg, t.entry);
    assert text[..|text|] == text;
  }

  lemma FinishIsSafe(cfg: Config, t: Thread, v: View, full: bool, c: Choice)
    requires ThreadOk(cfg, t, v) && Whole(cfg, v)
    requires Finish(cfg, t, full, c).Some?
    ensures SafeEffect(cfg, v, Finish(cfg, t, full, c).value)
  {
  }

  /** One handler action on its own files. */
  lemma AdvanceIsSafe(cfg: Config, t: Thread, v: View, rem: Option<Record>, full: bool, c: Choice)
    requires Sound(cfg) && !cfg.readMayFail && PcOk(cfg, t)
    requires ThreadOk(cfg, t, v) && Whole(cfg, v)
    requires Advance(cfg, t, v, rem, full, c).Some?
    ensures SafeEffect(cfg, v, Advance(cfg, t, v, rem, full, c).value)
  {
    if LooksUp(t.pc) {
      LookupIsSafe(cfg, t, v, rem, c);
    } else if WritesData(t.pc) {
      WriteDataIsSafe(cfg, t, v, c);
    } else if WritesMeta(t.pc) {
      WriteMetaIsSafe(cfg, t, v, c);
    } else {
      FinishIsSafe(cfg, t, v, full, c);
    }
  }

  lemma OutsiderIsSafe(cfg: Config, t: Thread, v: View, w: View)
    requires ThreadOk(cfg, t, v) && !InSection(t.pc) && Keeps(cfg, v, w)
    ensures ThreadOk(cfg, t, w)
  {
  }

  // ---------------------------------------------------------------- the whole system

  /** A response that promises an entry names the entry's file and repeats its metadata. */
  predicate Promises(cfg: Config, r: Request, a: Response, e: Entry) {
    && a.rid == r.rid && a.err.None? && !a.miss && a.diskPath == Some(cfg.path(r.actionID))
    && (r.cmd == CmdGet ==> a.outputID == e.outputID && a.size == e.size && a.time == Some(e.time))
  }

  predicate AnswerKept(cfg: Config, files: Files, input: seq<Request>, a: Answer) {
    a.promise.Some? ==>
      && a.index < |input|
      && Promises(cfg, input[a.index], a.response, a.promise.value)
      && LocalEntry(cfg, At(files, input[a.index].actionID)) == a.promise
  }

  predicate OutKept(cfg: Config, files: Files, p: Proc) {
    forall i :: 0 <= i < |p.out| ==> AnswerKept(cfg, files, p.input, p.out[i])
  }

  ghost predicate FilesSafe(cfg: Config, files: Files) {
    forall id :: Whole(cfg, At(files, id))
  }

  predicate ThreadsOk(cfg: Config, files: Files, threads: Threads) {
    forall tid :: tid in threads ==> ThreadOk(cfg, threads[tid], At(files, threads[tid].req.actionID))
  }

  predicate AnswersKept(cfg: Config, files: Files, procs: Procs) {
    forall pid :: pid in procs ==> OutKept(cfg, files, procs[pid])
  }

  ghost predicate Inv(cfg: Config, s: State) {
    && Base(cfg, s)
    && FilesSafe(cfg, s.files) && ThreadsOk(cfg, s.files, s.threads)
    && AnswersKept(cfg, s.files, s.procs)
  }

  /** First write wins: no entry that can be read is ever changed or lost. */
  ghost predicate Grows(cfg: Config, f: Files, g: Files) {
    forall id :: Keeps(cfg, At(f, id), At(g, id))
  }

  function Updated(files: Files, id: ActionID, op: FsOp): Files {
    if op.Nop? then files else files[id := ApplyView(At(files, id), op)]
  }

  /** An operation changes the files of its own action ID and no others. */
  lemma UpdatedAt(files: Files, id: ActionID, op: FsOp, other: ActionID)
    ensures At(Updated(files, id, op), other) == if other == id then ApplyView(At(files, id), op) else At(files, other)
  {
  }

  lemma FilesStaySafe(cfg: Config, files: Files, id: ActionID, e: Effect)
    requires FilesSafe(cfg, files) && SafeEffect(cfg, At(files, id), e)
    ensures FilesSafe(cfg, Updated(files, id, e.op)) && Grows(cfg, files, Updated(files, id, e.op))
  {
    forall other
      ensures Whole(cfg, At(Updated(files, id, e.op), other))
      ensures Keeps(cfg, At(files, other), At(Updated(files, id, e.op), other))
    {
      UpdatedAt(files, id, e.op, other);
    }
  }

  lemma OthersStayOk(cfg: Config, files: Files, threads: Threads, locks: Locks, tid: Tid, e: Effect)
    requires LocksHeld(cfg, threads, locks) && ThreadsOk(cfg, files, threads) && tid in threads
    requires Moves(cfg, threads[tid], e) && SafeEffect(cfg, At(files, threads[tid].req.actionID), e)
    ensures var g := Updated(files, threads[tid].req.actionID, e.op);
      ThreadsOk(cfg, g, threads[tid := e.t]) && ThreadsOk(cfg, g, threads - {tid})
  {
    var id := threads[tid].req.actionID;
    forall x | x in threads && x != tid
      ensures ThreadOk(cfg, threads[x], At(Updated(files, id, e.op), threads[x].req.actionID))
    {
      UpdatedAt(files, id, e.op, threads[x].req.actionID);
      if threads[x].req.actionID == id && !e.op.Nop? {
        assert !InSection(threads[x].pc);
        OutsiderIsSafe(cfg, threads[x], At(files, id), ApplyView(At(files, id), e.op));
      }
    }
    UpdatedAt(files, id, e.op, id);
  }

  lemma AnswersStayKept(cfg: Config, f: Files, g: Files, procs: Procs)
    requires AnswersKept(cfg, f, procs) && Grows(cfg, f, g)
    ensures AnswersKept(cfg, g, procs)
  {
    forall pid | pid in procs
      ensures OutKept(cfg, g, procs[pid])
    {
      var p := procs[pid];
      forall i | 0 <= i < |p.out|
        ensures AnswerKept(cfg, g, p.input, p.out[i])
      {
        assert AnswerKept(cfg, f, p.input, p.out[i]);
        if p.out[i].promise.Some? {
          assert Keeps(cfg, At(f, p.input[p.out[i].index].actionID), At(g, p.input[p.out[i].index].actionID));
        }
      }
    }
  }

  /** The answer a handler sends keeps what the handler promised. */
  lemma AnswerIsKept(cfg: Config, files: Files, p: Proc, tid: Tid, t: Thread, e: Effect)
    requires OutKept(cfg, files, p) && ThreadOwned(p, tid.index, t) && PcOk(cfg, t)
    requires ThreadOk(cfg, t, At(files, t.req.actionID))
    ensures OutKept(cfg, files, AfterMove(cfg, p, tid, t, e))
  {
    var a := Answer(tid.index, ResponseOf(cfg, t.req, t.result), PromiseOf(t.result));
    assert AnswerKept(cfg, files, p.input, a);
  }

  lemma AnswersAfterMove(cfg: Config, f: Files, g: Files, procs: Procs, tid: Tid, t: Thread, e: Effect)
    requires tid.pid in procs && ThreadOwned(procs[tid.pid], tid.index, t) && PcOk(cfg, t)
    requires ThreadOk(cfg, t, At(f, t.req.actionID))
    requires AnswersKept(cfg, f, procs) && Grows(cfg, f, g)
    ensures AnswersKept(cfg, g, procs[tid.pid := AfterMove(cfg, procs[tid.pid], tid, t, e)])
  {
    AnswerIsKept(cfg, f, procs[tid.pid], tid, t, e);
    AnswersStayKept(cfg, f, g, procs[tid.pid := AfterMove(cfg, procs[tid.pid], tid, t, e)]);
  }

  lemma EffectIsSafe(cfg: Config, s: State, tid: Tid, c: Choice, e: Effect)
    requires Inv(cfg, s) && Sound(cfg) && !cfg.readMayFail && tid in s.threads && EffectOf(cfg, s, tid, c) == Some(e)
    ensures SafeEffect(cfg, At(s.files, s.threads[tid].req.actionID), e) && Moves(cfg, s.threads[tid], e)
  {
    var t := s.threads[tid];
    var id := t.req.actionID;
    AdvanceMoves(cfg, t, At(s.files, id), Get(s.remote, id), Full(cfg, s.procs[tid.pid]), c);
    AdvanceIsSafe(cfg, t, At(s.files, id), Get(s.remote, id), Full(cfg, s.procs[tid.pid]), c);
  }

  lemma CommitKeepsThreads(cfg: Config, s: State, tid: Tid, e: Effect)
    requires Base(cfg, s) && ThreadsOk(cfg, s.files, s.threads) && tid in s.threads
    requires SafeEffect(cfg, At(s.files, s.threads[tid].req.actionID), e) && Moves(cfg, s.threads[tid], e)
    ensures ThreadsOk(cfg, Commit(cfg, s, tid, e).files, Commit(cfg, s, tid, e).threads)
  {
    OthersStayOk(cfg, s.files, s.threads, s.locks, tid, e);
  }

  lemma CommitKeepsInv(cfg: Config, s: State, tid: Tid, e: Effect)
    requires Inv(cfg, s) && tid in s.threads && Base(cfg, Commit(cfg, s, tid, e))
    requires SafeEffect(cfg, At(s.files, s.threads[tid].req.actionID), e) && Moves(cfg, s.threads[tid], e)
    ensures Inv(cfg, Commit(cfg, s, tid, e)) && Grows(cfg, s.files, Commit(cfg, s, tid, e).files)
  {
    var t := s.threads[tid];
    var id := t.req.actionID;
    FilesStaySafe(cfg, s.files, id, e);
    CommitKeepsThreads(cfg, s, tid, e);
    AnswersAfterMove(cfg, s.files, Updated(s.files, id, e.op), s.procs, tid, t, e);
  }

  lemma JobKeepsInv(cfg: Config, s: State, tid: Tid, c: Choice, e: JobEffect)
    requires Inv(cfg, s) && tid in s.jobs && tid.pid in s.procs
    requires AdvanceJob(s.jobs[tid], s.procs[tid.pid], tid, c) == Some(e)
    ensures Inv(cfg, CommitJob(s, tid, e)) && CommitJob(s, tid, e).files == s.files
  {
    JobKeepsBase(cfg, s, tid, c, e);
    assert e.p.out == s.procs[tid.pid].out && e.p.input == s.procs[tid.pid].input;
    assert OutKept(cfg, s.files, e.p);
  }

  lemma ProcAnswersKept(cfg: Config, files: Files, p: Proc, pid: nat, idle: bool, e: ProcEffect)
    requires OutKept(cfg, files, p) && ProcOk(p) && AdvanceProc(p, pid, idle) == Some(e)
    ensures OutKept(cfg, files, e.p)
    ensures e.spawn.Some? ==> ThreadOk(cfg, e.spawn.value, At(files, e.spawn.value.req.actionID))
  {
  }

  lemma ProcKeepsInv(cfg: Config, s: State, pid: nat, e: ProcEffect)
    requires Inv(cfg, s) && pid in s.procs && AdvanceProc(s.procs[pid], pid, Idle(s.threads, pid)) == Some(e)
    requires Base(cfg, CommitProc(s, pid, e))
    ensures Inv(cfg, CommitProc(s, pid, e)) && CommitProc(s, pid, e).files == s.files
  {
    ProcAnswersKept(cfg, s.files, s.procs[pid], pid, Idle(s.threads, pid), e);
  }

  lemma KillKeepsInv(cfg: Config, s: State, pid: nat)
    requires Inv(cfg, s) && StepKill(s, pid).Some?
    ensures Inv(cfg, StepKill(s, pid).value) && StepKill(s, pid).value.files == s.files
  {
    KillKeepsBase(cfg, s, pid);
    var u := StepKill(s, pid).value;
    assert OutKept(cfg, s.files, u.procs[pid]);
  }

  /** Every action of every goroutine, every failure and every kill keeps the invariant and every readable entry. */
  lemma StepKeepsInv(cfg: Config, s: State, l: Label)
    requires Inv(cfg, s) && Sound(cfg) && !cfg.readMayFail && Step(cfg, s, l).Some?
    ensures Inv(cfg, Step(cfg, s, l).value) && Grows(cfg, s.files, Step(cfg, s, l).value.files)
  {
    match l
    case ThreadL(tid, c) =>
      ThreadKeepsBase(cfg, s, tid, c);
      EffectIsSafe(cfg, s, tid, c, EffectOf(cfg, s, tid, c).value);
      CommitKeepsInv(cfg, s, tid, EffectOf(cfg, s, tid, c).value);
    case JobL(tid, c) => JobKeepsInv(cfg, s, tid, c, AdvanceJob(s.jobs[tid], s.procs[tid.pid], tid, c).value);
    case ProcL(pid) =>
      AdvanceProcShape(s.procs[pid], pid, Idle(s.threads, pid));
      ProcKeepsBase(cfg, s, pid, AdvanceProc(s.procs[pid], pid, Idle(s.threads, pid)).value);
      ProcKeepsInv(cfg, s, pid, AdvanceProc(s.procs[pid], pid, Idle(s.threads, pid)).value);
    case KillL(pid) => KillKeepsInv(cfg, s, pid);
  }

  lemma {:induction false} RunKeepsInv(cfg: Config, s: State, ls: seq<Label>)
    requires Inv(cfg, s) && Sound(cfg) && !cfg.readMayFail && Run(cfg, s, ls).Some?
    ensures Inv(cfg, Run(cfg, s, ls).value) && Grows(cfg, s.files, Run(cfg, s, ls).value.files)
    decreases |ls|
  {
    if ls != [] {
      StepKeepsInv(cfg, s, ls[0]);
      var u := Step(cfg, s, ls[0]).value;
      RunKeepsInv(cfg, u, ls[1..]);
      var w := Run(cfg, s, ls).value;
      forall id
        ensures Keeps(cfg, At(s.files, id), At(w.files, id))
      {
        assert Keeps(cfg, At(s.files, id), At(u.files, id)) && Keeps(cfg, At(u.files, id), At(w.files, id));
      }
    }
  }

  lemma InitHasInv(cfg: Config, s: State)
    requires Init(cfg, s)
    ensures Inv(cfg, s)
  {
  }
}
