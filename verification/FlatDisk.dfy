/** The step machine on a disk of plain paths: every run keeps the directory in agreement with the per-action views. */
module FlatDisk {
  import opened Basics
  import opened Disk
  import opened Protocol
  import opened Exclusion
  import opened Safety
  import opened Paths
  import Origins

  /** A handler without an action ID never gets to touch a file: actionIDToPath panics first. */
  predicate Placed(t: Thread) {
    t.req.actionID == [] ==> t.pc.Locking? || t.pc.Checking? || t.pc.Answering?
  }

  predicate AllPlaced(threads: Threads) {
    forall tid :: tid in threads ==> Placed(threads[tid])
  }

  predicate PlacedEffect(t: Thread, e: Effect) {
    && e.t.req == t.req && (e.t.pc.Gone? || Placed(e.t))
    && (e.op.Nop? || t.req.actionID != [])
    && (e.op.RenameFile? ==> e.op.src != e.op.dst)
  }

  lemma LookupPlaced(cfg: Config, t: Thread, v: View, rem: Option<Record>, c: Choice)
    requires Placed(t) && Lookup(cfg, t, v, rem, c).Some?
    ensures PlacedEffect(t, Lookup(cfg, t, v, rem, c).value)
  {
  }

  lemma WritesPlaced(cfg: Config, t: Thread, c: Choice)
    requires Placed(t)
    ensures WriteData(t, c).Some? ==> PlacedEffect(t, WriteData(t, c).value)
    ensures WriteMeta(cfg, t, c).Some? ==> PlacedEffect(t, WriteMeta(cfg, t, c).value)
  {
  }

  lemma AdvancePlaced(cfg: Config, t: Thread, v: View, rem: Option<Record>, full: bool, c: Choice)
    requires Placed(t) && Advance(cfg, t, v, rem, full, c).Some?
    ensures PlacedEffect(t, Advance(cfg, t, v, rem, full, c).value)
  {
    if LooksUp(t.pc) {
      LookupPlaced(cfg, t, v, rem, c);
    } else if WritesData(t.pc) || WritesMeta(t.pc) {
      WritesPlaced(cfg, t, c);
    }
  }

  /** The plain disk after `l`: the handler's system call, if it makes one. */
  function FlatStep(cfg: Config, dir: string, s: State, fs: FlatFiles, l: Label): FlatFiles {
    if l.ThreadL? && l.tid in s.threads && l.tid.pid in s.procs && s.threads[l.tid].req.actionID != [] then
      var e := EffectOf(cfg, s, l.tid, l.c);
      if e.Some? then Call(fs, dir, s.threads[l.tid].req.actionID, e.value.op) else fs
    else fs
  }

  function FlatRun(cfg: Config, dir: string, s: State, fs: FlatFiles, ls: seq<Label>): FlatFiles
    decreases |ls|
  {
    if ls == [] || Step(cfg, s, ls[0]).None? then fs
    else FlatRun(cfg, dir, Step(cfg, s, ls[0]).value, FlatStep(cfg, dir, s, fs, ls[0]), ls[1..])
  }

  lemma ThreadRepresents(cfg: Config, dir: string, s: State, fs: FlatFiles, tid: Tid, c: Choice)
    requires Represents(fs, dir, s.files) && AllPlaced(s.threads) && StepThread(cfg, s, tid, c).Some?
    ensures Represents(FlatStep(cfg, dir, s, fs, ThreadL(tid, c)), dir, StepThread(cfg, s, tid, c).value.files)
    ensures AllPlaced(StepThread(cfg, s, tid, c).value.threads)
  {
    var t := s.threads[tid];
    var id := t.req.actionID;
    var e := EffectOf(cfg, s, tid, c).value;
    AdvancePlaced(cfg, t, At(s.files, id), Get(s.remote, id), Full(cfg, s.procs[tid.pid]), c);
    hide Advance;
    if id != [] {
      CallRepresents(fs, dir, s.files, id, e.op);
    }
    hide Represents;
    hide Call;
  }

  lemma StepRepresents(cfg: Config, dir: string, s: State, fs: FlatFiles, l: Label)
    requires Represents(fs, dir, s.files) && AllPlaced(s.threads) && Step(cfg, s, l).Some?
    ensures Represents(FlatStep(cfg, dir, s, fs, l), dir, Step(cfg, s, l).value.files)
    ensures AllPlaced(Step(cfg, s, l).value.threads)
  {
    hide Represents;
    match l
    case ThreadL(tid, c) => ThreadRepresents(cfg, dir, s, fs, tid, c);
    case JobL(tid, c) =>
    case ProcL(pid) =>
    case KillL(pid) =>
  }

  lemma {:induction false} RunRepresents(cfg: Config, dir: string, s: State, fs: FlatFiles, ls: seq<Label>)
    requires Represents(fs, dir, s.files) && AllPlaced(s.threads) && Run(cfg, s, ls).Some?
    ensures Represents(FlatRun(cfg, dir, s, fs, ls), dir, Run(cfg, s, ls).value.files)
    decreases |ls|
  {
    if ls != [] {
      StepRepresents(cfg, dir, s, fs, ls[0]);
      RunRepresents(cfg, dir, Step(cfg, s, ls[0]).value, FlatStep(cfg, dir, s, fs, ls[0]), ls[1..]);
    }
  }

  /**
    Crash safety in terms of paths: after any run, if the file P.meta of an action reads back as metadata, then the
    file P is there, it has exactly the size the metadata states, and the two files together are one write's entry.
   */
  lemma CrashSafeOnDisk(cfg: Config, dir: string, s: State, fs: FlatFiles, ls: seq<Label>, id: ActionID)
    requires Sound(cfg) && !cfg.readMayFail && Init(cfg, s) && Run(cfg, s, ls).Some?
    requires Represents(fs, dir, s.files) && id != []
    ensures var g := FlatRun(cfg, dir, s, fs, ls); var p := FilePath(dir, id, Data); var m := FilePath(dir, id, Meta);
      m in g && cfg.parse(g[m]).Some? ==>
        && p in g
        && (FilesFit(cfg, s.files) && FillsFit(cfg, s.remote) ==> Fits(cfg.parse(g[m]).value.size, g[p]))
        && FromOneWrite(cfg, s, id, Entry(cfg.parse(g[m]).value.outputID, g[p], cfg.parse(g[m]).value.size,
            cfg.parse(g[m]).value.time))
  {
    RunRepresents(cfg, dir, s, fs, ls);
    var u := Run(cfg, s, ls).value;
    var g := FlatRun(cfg, dir, s, fs, ls);
    assert ViewAt(g, dir, id) == At(u.files, id);
    Origins.EntriesAreWhole(cfg, s, ls, id);
    if FilesFit(cfg, s.files) && FillsFit(cfg, s.remote) {
      Origins.CrashSafety(cfg, s, ls);
      assert Consistent(cfg, At(u.files, id));
    }
    hide FromOneWrite;
    hide Sound;
    hide Init;
    hide FilePath;
  }
}
