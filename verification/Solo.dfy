/** Concrete runs, put together action by action: one process after another handles a single request on its own. */
module Solo {
  import opened Basics
  import opened Disk
  import opened Protocol

  /** `s` is reached from `start`. */
  ghost predicate From(cfg: Config, start: State, s: State) {
    exists ls :: Run(cfg, start, ls) == Some(s)
  }

  lemma {:induction false} RunAppend(cfg: Config, s: State, ls: seq<Label>, l: Label)
    requires Run(cfg, s, ls).Some?
    ensures Run(cfg, s, ls + [l]) == Step(cfg, Run(cfg, s, ls).value, l)
    decreases |ls|
  {
    hide Step;
    if ls == [] {
      assert [l][1..] == [];
      assert Run(cfg, s, [l]) == Step(cfg, s, l);
    } else {
      assert (ls + [l])[1..] == ls[1..] + [l];
      RunAppend(cfg, Step(cfg, s, ls[0]).value, ls[1..], l);
    }
  }

  lemma FromSelf(cfg: Config, s: State)
    ensures From(cfg, s, s)
  {
    assert Run(cfg, s, []) == Some(s);
  }

  lemma FromStep(cfg: Config, start: State, s: State, l: Label)
    requires From(cfg, start, s) && Step(cfg, s, l).Some?
    ensures From(cfg, start, Step(cfg, s, l).value)
  {
    var ls :| Run(cfg, start, ls) == Some(s);
    hide Step;
    RunAppend(cfg, start, ls, l);
    assert Run(cfg, start, ls + [l]) == Some(Step(cfg, s, l).value);
  }

  function Fresh(r: Request): Proc {
    Proc([r], 0, Booting, false, [], 0, 0, 0, 0, 0)
  }

  predicate OthersSame(s0: State, s: State, pid: nat) {
    && s.jobs == s0.jobs && s.procs.Keys == s0.procs.Keys
    && forall p :: p in s0.procs && p != pid ==> s.procs[p] == s0.procs[p]
  }

  /** Since `s0`, process `pid` has been handling its one request alone, and has got to `t` with files `v`. */
  predicate Stands(cfg: Config, s0: State, s: State, pid: nat, t: Thread, v: View) {
    && pid in s.procs && s.procs[pid].tokens == 0
    && Tid(pid, 0) in s.threads && s.threads[Tid(pid, 0)] == t
    && s.locks == (if InSection(t.pc) then map[cfg.lockName(t.req.actionID) := Tid(pid, 0)] else map[])
    && At(s.files, t.req.actionID) == v && s.remote == s0.remote && s.log == s0.log && OthersSame(s0, s, pid)
  }

  ghost predicate Alone(cfg: Config, start: State, s0: State, s: State, pid: nat, t: Thread, v: View) {
    From(cfg, start, s) && Stands(cfg, s0, s, pid, t, v)
  }

  lemma CommitStands(cfg: Config, s0: State, s: State, pid: nat, t: Thread, v: View, e: Effect)
    requires Stands(cfg, s0, s, pid, t, v) && (InSection(t.pc) || t.pc.Locking?) && InSection(e.t.pc)
    requires e.t.req == t.req
    requires e.event.None? && e.spawn.None? && e.store.None?
    ensures Stands(cfg, s0, Commit(cfg, s, Tid(pid, 0), e), pid, e.t, ApplyView(v, e.op))
  {
    assert e.op.Nop? ==> ApplyView(v, e.op) == v;
    hide ApplyView;
  }

  /** A quiet action inside the callback, or the one that enters it. */
  lemma Act(cfg: Config, start: State, s0: State, s: State, pid: nat, t: Thread, v: View, c: Choice, e: Effect)
      returns (u: State)
    requires Alone(cfg, start, s0, s, pid, t, v) && (InSection(t.pc) || t.pc.Locking?) && InSection(e.t.pc)
    requires e.t.req == t.req
    requires e.event.None? && e.spawn.None? && e.store.None?
    requires forall full :: Advance(cfg, t, v, Get(s0.remote, t.req.actionID), full, c) == Some(e)
    ensures Alone(cfg, start, s0, u, pid, e.t, ApplyView(v, e.op))
  {
    hide From;
    hide ApplyView;
    var tid := Tid(pid, 0);
    CommitStands(cfg, s0, s, pid, t, v, e);
    assert EffectOf(cfg, s, tid, c) == Some(e);
    hide Advance;
    hide Commit;
    u := Commit(cfg, s, tid, e);
    assert Step(cfg, s, ThreadL(tid, c)) == Some(u);
    FromStep(cfg, start, s, ThreadL(tid, c));
  }

  /** The process starts and hands its request to a handler. */
  lemma Boot(cfg: Config, start: State, s0: State, pid: nat, r: Request) returns (s: State)
    requires From(cfg, start, s0) && pid in s0.procs && s0.procs[pid] == Fresh(r) && s0.locks == map[]
    requires r.cmd == CmdGet || r.cmd == CmdPut
    ensures Alone(cfg, start, s0, s, pid, NewThread(r), At(s0.files, r.actionID))
  {
    hide From;
    var s1 := StepProc(s0, pid).value;
    FromStep(cfg, start, s0, ProcL(pid));
    s := StepProc(s1, pid).value;
    FromStep(cfg, start, s1, ProcL(pid));
  }

  /** The data file is created, filled and renamed into place. */
  lemma WriteFileOf(cfg: Config, start: State, s0: State, s: State, pid: nat, t: Thread, v: View) returns (u: State)
    requires Alone(cfg, start, s0, s, pid, t, v) && t.pc.Creating?
    ensures Alone(cfg, start, s0, u, pid, t.(pc := Cleaning(true)), v.(data := Some(t.entry.bytes), dataTmp := None))
  {
    hide Alone;
    var b := t.entry.bytes;
    assert b[..|b|] == b;
    var t1, w := t.(pc := Copying(0)), v.(dataTmp := Some([]));
    u := Act(cfg, start, s0, s, pid, t, v, Go, Write(t, Copying(0), WriteFile(Kind.DataTmp, [])));
    if b != [] {
      u := Act(cfg, start, s0, u, pid, t1, w, Upto(|b|), Write(t1, Copying(|b|), WriteFile(Kind.DataTmp, b)));
      t1, w := t.(pc := Copying(|b|)), v.(dataTmp := Some(b));
    }
    u := Act(cfg, start, s0, u, pid, t1, w, Go, Move(t1, Renaming));
    var t2 := t.(pc := Renaming);
    u := Act(cfg, start, s0, u, pid, t2, w, Go, Write(t2, Cleaning(true), RenameFile(Kind.DataTmp, Kind.Data)));
  }

  /** write returns. */
  lemma CleanUp(cfg: Config, start: State, s0: State, s: State, pid: nat, t: Thread, v: View) returns (u: State)
    requires Alone(cfg, start, s0, s, pid, t, v) && t.pc == Cleaning(true) && v.dataTmp.None?
    ensures Alone(cfg, start, s0, u, pid, t.(pc := MetaCreating), v)
  {
    hide Alone;
    u := Act(cfg, start, s0, s, pid, t, v, Go, Write(t, MetaCreating, RemoveFile(Kind.DataTmp)));
  }

  /** The metadata is written and renamed into place. */
  lemma WriteMetaOf(cfg: Config, start: State, s0: State, s: State, pid: nat, t: Thread, v: View) returns (u: State)
    requires Alone(cfg, start, s0, s, pid, t, v) && t.pc.MetaCreating?
    ensures Alone(cfg, start, s0, u, pid, Written(t, true), v.(meta := Some(MetaText(cfg, t.entry)), metaTmp := None))
  {
    hide Alone;
    hide MetaText;
    var text := MetaText(cfg, t.entry);
    assert text[..|text|] == text;
    var t1, w := t.(pc := MetaCopying(0)), v.(metaTmp := Some([]));
    u := Act(cfg, start, s0, s, pid, t, v, Go, Write(t, MetaCopying(0), WriteFile(Kind.MetaTmp, [])));
    if text != [] {
      u := Act(cfg, start, s0, u, pid, t1, w, Upto(|text|), Write(t1, MetaCopying(|text|), WriteFile(Kind.MetaTmp,
          text)));
      t1, w := t.(pc := MetaCopying(|text|)), v.(metaTmp := Some(text));
    }
    u := Act(cfg, start, s0, u, pid, t1, w, Go, Move(t1, MetaRenaming));
    var t2 := t.(pc := MetaRenaming);
    assert Written(t2, true) == Written(t, true);
    u := Act(cfg, start, s0, u, pid, t2, w, Go, Effect(Written(t2, true), RenameFile(Kind.MetaTmp, Kind.Meta), None,
        None, None));
  }

  /** The lock is taken. */
  lemma Enter(cfg: Config, start: State, s0: State, s: State, pid: nat, t: Thread, v: View) returns (u: State)
    requires Alone(cfg, start, s0, s, pid, t, v) && t.pc.Locking?
    ensures Alone(cfg, start, s0, u, pid, t.(pc := Checking), v)
  {
    hide Alone;
    u := Act(cfg, start, s0, s, pid, t, v, Go, Move(t, Checking));
  }

  /** A lookup that finds nothing, or that fails to read what is there. */
  predicate CanMiss(cfg: Config, v: View) {
    cfg.readMayFail || LocalEntry(cfg, v).None?
  }

  /** A PUT misses and takes its body. */
  lemma MissAndRead(cfg: Config, start: State, s0: State, s: State, pid: nat, t: Thread, v: View, e: Entry)
      returns (u: State)
    requires Alone(cfg, start, s0, s, pid, t, v) && t.pc.Checking? && t.req.cmd == CmdPut && t.req.actionID != []
    requires CanMiss(cfg, v) && StoresBody(t.req, e)
    ensures Alone(cfg, start, s0, u, pid, t.(pc := Creating, entry := e), v)
  {
    hide Alone;
    PutEntryStores(t.req, e.time);
    hide PutEntry;
    u := Act(cfg, start, s0, s, pid, t, v, if LocalEntry(cfg, v).None? then Go else Fail, Move(t, ReadingBody));
    var t1 := t.(pc := ReadingBody);
    u := Act(cfg, start, s0, u, pid, t1, v, Clock(e.time), Move(t1.(entry := e), Creating));
  }

  /** A GET misses and downloads the remote object. */
  lemma MissAndFetch(cfg: Config, start: State, s0: State, s: State, pid: nat, t: Thread, v: View, rec: Record,
                     e: Entry) returns (u: State)
    requires Alone(cfg, start, s0, s, pid, t, v) && t.pc.Checking? && t.req.cmd == CmdGet && t.req.actionID != []
    requires LocalEntry(cfg, v).None? && Get(s0.remote, t.req.actionID) == Some(rec) && FillsIn(cfg, rec, e)
    ensures Alone(cfg, start, s0, u, pid, t.(pc := Creating, entry := e), v)
  {
    hide Alone;
    FillEntryFills(cfg, rec);
    hide FillEntry;
    u := Act(cfg, start, s0, s, pid, t, v, Go, Move(t, Calling));
    var t1 := t.(pc := Calling);
    u := Act(cfg, start, s0, u, pid, t1, v, Go, Move(t1, Fetching));
    var t2 := t.(pc := Fetching);
    u := Act(cfg, start, s0, u, pid, t2, v, Go, Move(t2.(entry := e), Creating));
  }
}
