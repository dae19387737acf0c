/** No torn entry: in every run, whatever can be read locally is the whole of one write. */
module Origins {
  import opened Basics
  import opened Disk
  import opened Protocol
  import opened Exclusion
  import opened Safety
  import opened Sources
  import Refinement

  /** A new local entry is the one its writer carries, and names its output. */
  predicate Installs(cfg: Config, t: Thread, v: View, e: Effect) {
    var w := LocalEntry(cfg, ApplyView(v, e.op));
    w == LocalEntry(cfg, v) || ((WritesData(t.pc) || WritesMeta(t.pc)) && w == Some(t.entry) && t.entry.outputID != [])
  }

  lemma SimulationInstalls(cfg: Config, t: Thread, v: View, rem: Option<Record>, e: Effect)
    requires Refinement.Simulates(cfg, t, v, rem, e)
    ensures Installs(cfg, t, v, e)
  {
    hide LocalEntry;
    hide ApplyView;
  }

  lemma EffectInstalls(cfg: Config, s: State, tid: Tid, c: Choice, e: Effect)
    requires Inv(cfg, s) && Sound(cfg) && !cfg.readMayFail && tid in s.threads && EffectOf(cfg, s, tid, c) == Some(e)
    ensures Installs(cfg, s.threads[tid], At(s.files, s.threads[tid].req.actionID), e)
    ensures HasEntry(s.threads[tid].pc) ==> s.threads[tid].req.actionID != []
  {
    var t := s.threads[tid];
    var id := t.req.actionID;
    assert PcOk(cfg, t) && ThreadOk(cfg, t, At(s.files, id));
    hide Inv;
    Refinement.AdvanceSimulates(cfg, t, At(s.files, id), Get(s.remote, id), Full(cfg, s.procs[tid.pid]), c);
    hide Advance;
    SimulationInstalls(cfg, t, At(s.files, id), Get(s.remote, id), e);
    hide Refinement.Simulates;
    hide Installs;
  }

  /** A local entry that changes becomes the one its writer carries. */
  lemma EntriesStayFrom(cfg: Config, s0: State, files: Files, t: Thread, e: Effect)
    requires EntriesWhole(cfg, s0, files) && Carries(cfg, s0, t)
    requires Installs(cfg, t, At(files, t.req.actionID), e) && (HasEntry(t.pc) ==> t.req.actionID != [])
    ensures EntriesWhole(cfg, s0, Updated(files, t.req.actionID, e.op))
  {
    var id := t.req.actionID;
    forall x | LocalEntry(cfg, At(Updated(files, id, e.op), x)).Some?
      ensures FromOneWrite(cfg, s0, x, LocalEntry(cfg, At(Updated(files, id, e.op), x)).value)
    {
      UpdatedAt(files, id, e.op, x);
    }
  }

  lemma StepKeepsEntries(cfg: Config, s0: State, s: State, l: Label)
    requires Inv(cfg, s) && Sound(cfg) && !cfg.readMayFail && Sourced(cfg, s0, s) && EntriesWhole(cfg, s0, s.files)
    requires Step(cfg, s, l).Some?
    ensures EntriesWhole(cfg, s0, Step(cfg, s, l).value.files)
  {
    hide Inv;
    hide Sound;
    hide EntriesWhole;
    if l.ThreadL? {
      var t := s.threads[l.tid];
      var e := EffectOf(cfg, s, l.tid, l.c).value;
      assert Carries(cfg, s0, t);
      EffectInstalls(cfg, s, l.tid, l.c, e);
      hide EffectOf;
      hide Sourced;
      hide Carries;
      hide Installs;
      EntriesStayFrom(cfg, s0, s.files, t, e);
    }
  }

  lemma {:induction false} RunKeepsEntries(cfg: Config, s0: State, s: State, ls: seq<Label>)
    requires Inv(cfg, s) && Sound(cfg) && !cfg.readMayFail && Sourced(cfg, s0, s) && EntriesWhole(cfg, s0, s.files)
    requires Run(cfg, s, ls).Some?
    ensures EntriesWhole(cfg, s0, Run(cfg, s, ls).value.files) && Inv(cfg, Run(cfg, s, ls).value)
    decreases |ls|
  {
    if ls != [] {
      assert Base(cfg, s);
      hide Inv;
      hide Sound;
      hide Sourced;
      hide EntriesWhole;
      hide Step;
      StepKeepsEntries(cfg, s0, s, ls[0]);
      StepSourced(cfg, s0, s, ls[0]);
      StepKeepsInv(cfg, s, ls[0]);
      RunKeepsEntries(cfg, s0, Step(cfg, s, ls[0]).value, ls[1..]);
    }
  }

  lemma RunFromInit(cfg: Config, s0: State, ls: seq<Label>)
    requires Sound(cfg) && !cfg.readMayFail && Init(cfg, s0) && Run(cfg, s0, ls).Some?
    ensures EntriesWhole(cfg, s0, Run(cfg, s0, ls).value.files) && Inv(cfg, Run(cfg, s0, ls).value)
  {
    InitHasInv(cfg, s0);
    InitSourced(cfg, s0);
    assert EntriesWhole(cfg, s0, s0.files);
    hide EntriesWhole;
    RunKeepsEntries(cfg, s0, s0, ls);
    hide *;
  }

  // ---------------------------------------------------------------- sizes

  lemma OneWriteFits(cfg: Config, s0: State, id: ActionID, e: Entry)
    requires Init(cfg, s0) && FilesFit(cfg, s0.files) && FillsFit(cfg, s0.remote) && FromOneWrite(cfg, s0, id, e)
    ensures Fits(e.size, e.bytes)
  {
    if LocalEntry(cfg, At(s0.files, id)) == Some(e) {
      assert Consistent(cfg, At(s0.files, id));
    } else if PutOf(s0.procs, id, e) {
      PutOfFits(cfg, s0, id, e);
    } else {
      FillOfFits(cfg, s0, id, e);
    }
  }

  // ---------------------------------------------------------------- theorems

  /**
    Between any two system calls, after any failure, with metadata writes failing, and after killing any process
    anywhere: readable metadata comes with a data file, and the entry they make up is the whole of one write.
   */
  lemma EntriesAreWhole(cfg: Config, s0: State, ls: seq<Label>, id: ActionID)
    requires Sound(cfg) && !cfg.readMayFail && Init(cfg, s0) && Run(cfg, s0, ls).Some?
    ensures var v := At(Run(cfg, s0, ls).value.files, id);
      LocalEntry(cfg, v).Some? ==> v.data.Some? && FromOneWrite(cfg, s0, id, LocalEntry(cfg, v).value)
  {
    RunFromInit(cfg, s0, ls);
    assert Whole(cfg, At(Run(cfg, s0, ls).value.files, id));
    hide FromOneWrite;
    hide Base;
  }

  /** If moreover the files at the start and the remote objects have the sizes they state, so has every entry. */
  lemma CrashSafety(cfg: Config, s0: State, ls: seq<Label>)
    requires Sound(cfg) && !cfg.readMayFail && Init(cfg, s0) && Run(cfg, s0, ls).Some?
    requires FilesFit(cfg, s0.files) && FillsFit(cfg, s0.remote)
    ensures CrashSafe(cfg, s0, Run(cfg, s0, ls).value)
  {
    var s := Run(cfg, s0, ls).value;
    forall id
      ensures Consistent(cfg, At(s.files, id))
      ensures LocalEntry(cfg, At(s.files, id)).Some? ==>
        FromOneWrite(cfg, s0, id, LocalEntry(cfg, At(s.files, id)).value)
    {
      EntriesAreWhole(cfg, s0, ls, id);
      if LocalEntry(cfg, At(s.files, id)).Some? {
        OneWriteFits(cfg, s0, id, LocalEntry(cfg, At(s.files, id)).value);
      }
      hide FromOneWrite;
      hide Init;
      hide Sound;
      hide FillsFit;
      hide FilesFit;
    }
  }

  /**
    A path once answered keeps its bytes: whatever runs later, the file behind every answer that promised an entry
    still holds that entry's bytes, and its metadata still reads back as that entry's; the entry is one write's.
   */
  lemma AnsweredPathsAreStable(cfg: Config, s0: State, ls0: seq<Label>, ls: seq<Label>, pid: nat, i: nat)
    requires Sound(cfg) && !cfg.readMayFail && Init(cfg, s0) && Run(cfg, s0, ls0).Some?
    requires Run(cfg, Run(cfg, s0, ls0).value, ls).Some?
    requires var s := Run(cfg, s0, ls0).value;
      pid in s.procs && i < |s.procs[pid].out| && s.procs[pid].out[i].promise.Some?
    ensures var s := Run(cfg, s0, ls0).value; var a := s.procs[pid].out[i]; var e := a.promise.value;
      a.index < |s.procs[pid].input| && Promises(cfg, s.procs[pid].input[a.index], a.response, e)
      && var id := s.procs[pid].input[a.index].actionID; var v := At(Run(cfg, s, ls).value.files, id);
      && v.data == Some(e.bytes) && MetaOf(cfg, v) == Some(Metadata(e.outputID, e.size, e.time))
      && FromOneWrite(cfg, s0, id, e)
      && (FilesFit(cfg, s0.files) && FillsFit(cfg, s0.remote) ==> Fits(e.size, e.bytes))
  {
    var s := Run(cfg, s0, ls0).value;
    RunFromInit(cfg, s0, ls0);
    RunKeepsInv(cfg, s, ls);
    hide Run;
    var p := s.procs[pid];
    assert OutKept(cfg, s.files, p) && AnswerKept(cfg, s.files, p.input, p.out[i]);
    var id := p.input[p.out[i].index].actionID;
    var u := Run(cfg, s, ls).value;
    assert Keeps(cfg, At(s.files, id), At(u.files, id)) && Whole(cfg, At(u.files, id));
    assert FromOneWrite(cfg, s0, id, p.out[i].promise.value) by { EntriesAreWhole(cfg, s0, ls0, id); }
    if FilesFit(cfg, s0.files) && FillsFit(cfg, s0.remote) {
      OneWriteFits(cfg, s0, id, p.out[i].promise.value);
    }
    hide *;
  }

  // ---------------------------------------------------------------- life after life

  /** Fresh processes on what a run left behind. */
  function Restarted(s: State, procs: Procs): State {
    State(s.files, s.remote, map[], map[], map[], procs, [])
  }

  /**
    However a run ended, with kills anywhere, fresh processes on the files and the remote store it left start from
    what every theorem about runs assumes, and sizes that fitted still fit; so the theorems hold life after life.
   */
  lemma RestartIsInit(cfg: Config, s0: State, ls: seq<Label>, procs: Procs)
    requires Sound(cfg) && !cfg.readMayFail && Init(cfg, s0) && Run(cfg, s0, ls).Some?
    requires forall pid :: pid in procs ==> FreshProc(procs[pid])
    ensures var r := Restarted(Run(cfg, s0, ls).value, procs);
      && Init(cfg, r)
      && (FillsFit(cfg, s0.remote) ==> FillsFit(cfg, r.remote))
      && (FilesFit(cfg, s0.files) && FillsFit(cfg, s0.remote) ==> FilesFit(cfg, r.files))
  {
    var s := Run(cfg, s0, ls).value;
    RunFromInit(cfg, s0, ls);
    if FillsFit(cfg, s0.remote) {
      InitSourced(cfg, s0);
      RunSourced(cfg, s0, s0, ls);
      RemotesStayFit(cfg, s0, s.remote);
      if FilesFit(cfg, s0.files) {
        CrashSafety(cfg, s0, ls);
      }
    }
    hide Run;
    hide Sound;
    hide FillsFit;
    hide FilesFit;
    hide RemotesFrom;
    hide EntriesWhole;
    forall id ensures Whole(cfg, At(s.files, id)) {}
  }
}
