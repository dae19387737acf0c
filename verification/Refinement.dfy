/** The step machine refines the first-write-wins map: every action is one atomic move of it, or none. */
module Refinement {
  import opened Basics
  import opened Disk
  import opened Protocol
  import opened Exclusion
  import opened Safety
  import Spec

  function OpOf(t: Thread): Spec.Op {
    if LooksUp(t.pc) then Spec.Waiting(t.req)
    else if WritesData(t.pc) || WritesMeta(t.pc) then Spec.Prepared(t.req, t.entry)
    else if t.pc.Unlocking? || t.pc.Answering? then Spec.Returned(t.req, t.result)
    else if t.pc.Gone? then Spec.Ended
    else Spec.Written(t.req, t.entry, t.result)
  }

  ghost function LocalMap(cfg: Config, files: Files): imap<ActionID, Entry> {
    imap id | LocalEntry(cfg, At(files, id)).Some? :: LocalEntry(cfg, At(files, id)).value
  }

  function OpsOf(threads: Threads): map<Tid, Spec.Op> {
    map tid | tid in threads :: OpOf(threads[tid])
  }

  function UploadsOf(jobs: map<Tid, Job>): map<Tid, Spec.Upload> {
    map tid | tid in jobs && jobs[tid].pc.Running? :: Spec.Upload(jobs[tid].id, jobs[tid].payload)
  }

  function Responses(out: seq<Answer>): seq<Response> {
    seq(|out|, i requires 0 <= i < |out| => out[i].response)
  }

  function OutOf(procs: Procs): map<nat, seq<Response>> {
    map pid | pid in procs :: Responses(procs[pid].out)
  }

  ghost function Abs(cfg: Config, s: State): Spec.State {
    Spec.State(LocalMap(cfg, s.files), s.remote, OpsOf(s.threads), UploadsOf(s.jobs), OutOf(s.procs))
  }

  /** The atomic move an action amounts to. */
  function MoveOf(cfg: Config, t: Thread, v: View, e: Effect): Spec.Move {
    Spec.Move(OpOf(e.t), LocalEntry(cfg, ApplyView(v, e.op)), e.store, e.spawn,
              if e.t.pc.Gone? then Some(ResponseOf(cfg, t.req, t.result)) else None)
  }

  predicate Stutters(cfg: Config, t: Thread, v: View, e: Effect) {
    !e.t.pc.Gone? && OpOf(e.t) == OpOf(t) && LocalEntry(cfg, ApplyView(v, e.op)) == LocalEntry(cfg,
        v) && e.store.None? && e.spawn.None?
  }

  predicate Simulates(cfg: Config, t: Thread, v: View, rem: Option<Record>, e: Effect) {
    Stutters(cfg, t, v, e) || Spec.KeyStep(cfg, OpOf(t), LocalEntry(cfg, v), rem, MoveOf(cfg, t, v, e))
  }

  lemma LookupSimulates(cfg: Config, t: Thread, v: View, rem: Option<Record>, c: Choice)
    requires !cfg.readMayFail && PcOk(cfg, t) && ThreadOk(cfg, t, v) && LooksUp(t.pc) && Lookup(cfg, t, v, rem, c).Some?
    ensures Simulates(cfg, t, v, rem, Lookup(cfg, t, v, rem, c).value)
  {
  }

  lemma WriteDataSimulates(cfg: Config, t: Thread, v: View, rem: Option<Record>, c: Choice)
    requires PcOk(cfg, t) && ThreadOk(cfg, t, v) && WritesData(t.pc) && WriteData(t, c).Some?
    ensures Simulates(cfg, t, v, rem, WriteData(t, c).value)
  {
  }

  lemma WriteMetaSimulates(cfg: Config, t: Thread, v: View, rem: Option<Record>, c: Choice)
    requires Sound(cfg) && PcOk(cfg, t) && ThreadOk(cfg, t, v) && WritesMeta(t.pc) && WriteMeta(cfg, t, c).Some?
    ensures Simulates(cfg, t, v, rem, WriteMeta(cfg, t, c).value)
  {
  }

  lemma FinishSimulates(cfg: Config, t: Thread, v: View, rem: Option<Record>, full: bool, c: Choice)
    requires PcOk(cfg, t) && Finish(cfg, t, full, c).Some?
    ensures Simulates(cfg, t, v, rem, Finish(cfg, t, full, c).value)
  {
  }

  lemma AdvanceSimulates(cfg: Config, t: Thread, v: View, rem: Option<Record>, full: bool, c: Choice)
    requires Sound(cfg) && !cfg.readMayFail && PcOk(cfg, t) && ThreadOk(cfg, t, v)
    requires Advance(cfg, t, v, rem, full, c).Some?
    ensures Simulates(cfg, t, v, rem, Advance(cfg, t, v, rem, full, c).value)
  {
    if LooksUp(t.pc) {
      LookupSimulates(cfg, t, v, rem, c);
    } else if WritesData(t.pc) {
      WriteDataSimulates(cfg, t, v, rem, c);
    } else if WritesMeta(t.pc) {
      WriteMetaSimulates(cfg, t, v, rem, c);
    } else {
      FinishSimulates(cfg, t, v, rem, full, c);
    }
  }

  /** Writing files for one action ID changes that ID's local entry at most. */
  lemma LocalMapAfter(cfg: Config, files: Files, id: ActionID, op: FsOp)
    requires Keeps(cfg, At(files, id), ApplyView(At(files, id), op))
    ensures var after := LocalEntry(cfg, ApplyView(At(files, id), op));
      LocalMap(cfg, Updated(files, id, op)) ==
        if after.Some? then LocalMap(cfg, files)[id := after.value] else LocalMap(cfg, files)
  {
    forall other
      ensures At(Updated(files, id, op), other) == if other == id then ApplyView(At(files, id), op) else At(files,
          other)
    {
      UpdatedAt(files, id, op, other);
    }
  }

  lemma OpsAfter(cfg: Config, s: State, tid: Tid, e: Effect)
    requires tid in s.threads && tid.pid in s.procs
    ensures OpsOf(Commit(cfg, s, tid, e).threads) ==
      if e.t.pc.Gone? then OpsOf(s.threads) - {tid} else OpsOf(s.threads)[tid := OpOf(e.t)]
    ensures UploadsOf(Commit(cfg, s, tid, e).jobs) ==
      if e.spawn.Some? then UploadsOf(s.jobs)[tid := Spec.Upload(s.threads[tid].req.actionID,
          e.spawn.value)] else UploadsOf(s.jobs)
  {
  }

  /** The answer a handler sends is the last of its process. */
  lemma OutAfter(cfg: Config, procs: Procs, tid: Tid, t: Thread, e: Effect)
    requires tid.pid in procs
    ensures OutOf(procs[tid.pid := AfterMove(cfg, procs[tid.pid], tid, t, e)]) ==
      if e.t.pc.Gone? then Spec.Answered(OutOf(procs), tid.pid, ResponseOf(cfg, t.req, t.result)) else OutOf(procs)
  {
    var q := AfterMove(cfg, procs[tid.pid], tid, t, e);
    if e.t.pc.Gone? {
      assert Responses(q.out) == Responses(procs[tid.pid].out) + [ResponseOf(cfg, t.req, t.result)];
    } else {
      assert Responses(q.out) == Responses(procs[tid.pid].out);
    }
    hide Responses;
    hide AfterMove;
    hide ResponseOf;
  }

  /** A process that changes nothing about its answers. */
  lemma OutSame(procs: Procs, pid: nat, q: Proc)
    requires pid in procs && q.out == procs[pid].out
    ensures OutOf(procs[pid := q]) == OutOf(procs)
  {
  }

  lemma AbsAfter(cfg: Config, s: State, tid: Tid, e: Effect)
    requires tid in s.threads && tid.pid in s.procs && (e.t.pc.Gone? <==> s.threads[tid].pc.Answering?)
    requires Keeps(cfg, At(s.files, s.threads[tid].req.actionID), ApplyView(At(s.files, s.threads[tid].req.actionID),
        e.op))
    ensures Abs(cfg, Commit(cfg, s, tid, e)) ==
      Spec.Apply(Abs(cfg, s), tid, s.threads[tid].req.actionID, MoveOf(cfg, s.threads[tid], At(s.files,
          s.threads[tid].req.actionID), e))
  {
    LocalMapAfter(cfg, s.files, s.threads[tid].req.actionID, e.op);
    OpsAfter(cfg, s, tid, e);
    OutAfter(cfg, s.procs, tid, s.threads[tid], e);
    assert OpOf(e.t).Ended? <==> e.t.pc.Gone?;
    hide LocalMap;
    hide OpsOf;
    hide UploadsOf;
    hide OutOf;
    hide AfterMove;
    hide Relock;
    hide ResponseOf;
  }

  lemma StutterApplies(a: Spec.State, tid: Tid, id: ActionID, m: Spec.Move)
    requires tid in a.ops && m == Spec.Move(a.ops[tid], Spec.Local(a, id), None, None, None) && !m.op.Ended?
    ensures Spec.Apply(a, tid, id, m) == a
  {
    assert a.ops[tid := a.ops[tid]] == a.ops;
    if id in a.local {
      assert a.local[id := a.local[id]] == a.local;
    }
  }

  lemma CommitRefines(cfg: Config, s: State, tid: Tid, e: Effect)
    requires tid in s.threads && tid.pid in s.procs && !s.threads[tid].pc.Gone?
    requires var v := At(s.files, s.threads[tid].req.actionID);
      && Keeps(cfg, v, ApplyView(v, e.op)) && (e.t.pc.Gone? <==> s.threads[tid].pc.Answering?)
      && Simulates(cfg, s.threads[tid], v, Get(s.remote, s.threads[tid].req.actionID), e)
    ensures Abs(cfg, Commit(cfg, s, tid, e)) ==
      Abs(cfg, s) || Spec.OpNext(cfg, Abs(cfg, s), Abs(cfg, Commit(cfg, s, tid, e)), tid)
  {
    var t := s.threads[tid];
    var id := t.req.actionID;
    var v := At(s.files, id);
    AbsAfter(cfg, s, tid, e);
    var a := Abs(cfg, s);
    assert a.ops[tid] == OpOf(t) && Spec.Local(a, id) == LocalEntry(cfg, v);
    if Stutters(cfg, t, v, e) {
      StutterApplies(a, tid, id, MoveOf(cfg, t, v, e));
    }
  }

  lemma JobRefines(cfg: Config, s: State, tid: Tid, c: Choice, e: JobEffect)
    requires tid in s.jobs && tid.pid in s.procs && AdvanceJob(s.jobs[tid], s.procs[tid.pid], tid, c) == Some(e)
    ensures Abs(cfg, CommitJob(s, tid, e)) ==
      Abs(cfg, s) || Spec.UploadNext(Abs(cfg, s), Abs(cfg, CommitJob(s, tid, e)), tid)
  {
    var a := Abs(cfg, s);
    var b := Abs(cfg, CommitJob(s, tid, e));
    OutSame(s.procs, tid.pid, e.p);
    if s.jobs[tid].pc.Running? {
      assert b.uploads == a.uploads - {tid};
      if c.Clock? || c.Lost? {
        var rec := RecordOf(a.uploads[tid].payload, c.now);
        assert Sent(rec) == a.uploads[tid].payload;
        assert b == a.(uploads := a.uploads - {tid}, remote := a.remote[a.uploads[tid].id := rec]);
      } else {
        assert b == a.(uploads := a.uploads - {tid});
      }
    } else {
      assert b.uploads == a.uploads;
    }
  }

  lemma SpawnRefines(cfg: Config, s: State, pid: nat, e: ProcEffect)
    requires Owned(s.threads, s.procs) && pid in s.procs && ProcShape(s.procs[pid], Idle(s.threads, pid), e)
    requires e.spawn.Some? && e.event.None? && !e.p.phase.Done?
    ensures Spec.BeginNext(Abs(cfg, s), Abs(cfg, CommitProc(s, pid, e)), Tid(pid, s.procs[pid].next))
  {
    var tid := Tid(pid, s.procs[pid].next);
    assert tid !in s.threads;
    assert OpsOf(s.threads[tid := e.spawn.value]) == OpsOf(s.threads)[tid := OpOf(e.spawn.value)];
    OutSame(s.procs, pid, e.p);
    hide LocalMap;
    hide OutOf;
  }

  function UploadsWithout(us: map<Tid, Spec.Upload>, pid: nat): map<Tid, Spec.Upload> {
    map tid | tid in us && tid.pid != pid :: us[tid]
  }

  lemma UploadsAfterDrop(jobs: map<Tid, Job>, pid: nat)
    ensures UploadsOf(DropJobs(jobs, pid)) == UploadsWithout(UploadsOf(jobs), pid)
  {
  }

  lemma QuietProcRefines(cfg: Config, s: State, pid: nat, e: ProcEffect)
    requires pid in s.procs && e.spawn.None? && e.p.out == s.procs[pid].out
    ensures Abs(cfg, CommitProc(s, pid, e)) ==
      Abs(cfg, s) || Spec.LeaveNext(Abs(cfg, s), Abs(cfg, CommitProc(s, pid, e)), pid)
  {
    OutSame(s.procs, pid, e.p);
    UploadsAfterDrop(s.jobs, pid);
    hide LocalMap;
    hide OpsOf;
    hide OutOf;
    hide UploadsOf;
    hide DropJobs;
  }

  lemma CloseRefines(cfg: Config, s: State, pid: nat, e: ProcEffect)
    requires Base(cfg, s) && pid in s.procs && s.procs[pid].phase.Replying?
    requires AdvanceProc(s.procs[pid], pid, Idle(s.threads, pid)) == Some(e)
    ensures Spec.CloseNext(Abs(cfg, s), Abs(cfg, CommitProc(s, pid, e)), pid)
  {
    var p := s.procs[pid];
    var rid := p.input[p.next - 1].rid;
    forall tid | tid in s.threads ensures tid.pid != pid {
      assert ThreadOwned(s.procs[tid.pid], tid.index, s.threads[tid]);
    }
    hide Base;
    assert Responses(e.p.out) == Responses(p.out) + [Spec.CloseResponse(rid)];
    hide Responses;
    UploadsAfterDrop(s.jobs, pid);
    hide LocalMap;
    hide UploadsOf;
    hide DropJobs;
    var a, b := Abs(cfg, s), Abs(cfg, CommitProc(s, pid, e));
    assert b.out == Spec.Answered(a.out, pid, Spec.CloseResponse(rid));
    assert b ==
      a.(uploads := UploadsWithout(a.uploads, pid), out := Spec.Answered(a.out, pid, Spec.CloseResponse(rid)));
  }

  lemma ProcRefines(cfg: Config, s: State, pid: nat, e: ProcEffect)
    requires Base(cfg, s) && pid in s.procs && AdvanceProc(s.procs[pid], pid, Idle(s.threads, pid)) == Some(e)
    ensures Abs(cfg, CommitProc(s, pid, e)) ==
      Abs(cfg, s) || Spec.Next(cfg, Abs(cfg, s), Abs(cfg, CommitProc(s, pid, e)))
  {
    hide Abs;
    hide CommitProc;
    hide Spec.BeginNext;
    hide Spec.LeaveNext;
    hide Spec.CloseNext;
    if e.spawn.Some? {
      AdvanceProcShape(s.procs[pid], pid, Idle(s.threads, pid));
      SpawnRefines(cfg, s, pid, e);
    } else if s.procs[pid].phase.Replying? {
      CloseRefines(cfg, s, pid, e);
    } else {
      QuietProcRefines(cfg, s, pid, e);
    }
  }

  lemma KillRefines(cfg: Config, s: State, pid: nat)
    requires StepKill(s, pid).Some?
    ensures Spec.LeaveNext(Abs(cfg, s), Abs(cfg, StepKill(s, pid).value), pid)
  {
    OutSame(s.procs, pid, s.procs[pid].(phase := Dead));
    UploadsAfterDrop(s.jobs, pid);
    hide LocalMap;
    hide OutOf;
    hide UploadsOf;
    hide DropJobs;
  }

  /**
    Forward simulation: under every interleaving, failure and kill, one action of the system is one atomic move of
    one operation of the specification, or changes nothing the specification can see.
   */
  lemma StepRefines(cfg: Config, s: State, l: Label)
    requires Inv(cfg, s) && Sound(cfg) && !cfg.readMayFail && Step(cfg, s, l).Some?
    ensures Abs(cfg, Step(cfg, s, l).value) ==
      Abs(cfg, s) || Spec.Next(cfg, Abs(cfg, s), Abs(cfg, Step(cfg, s, l).value))
  {
    match l
    case ThreadL(tid, c) =>
      var t := s.threads[tid];
      var e := EffectOf(cfg, s, tid, c).value;
      EffectIsSafe(cfg, s, tid, c, e);
      AdvanceSimulates(cfg, t, At(s.files, t.req.actionID), Get(s.remote, t.req.actionID), Full(cfg, s.procs[tid.pid]),
          c);
      CommitRefines(cfg, s, tid, e);
    case JobL(tid, c) => JobRefines(cfg, s, tid, c, AdvanceJob(s.jobs[tid], s.procs[tid.pid], tid, c).value);
    case ProcL(pid) => ProcRefines(cfg, s, pid, AdvanceProc(s.procs[pid], pid, Idle(s.threads, pid)).value);
    case KillL(pid) => KillRefines(cfg, s, pid);
  }

  /** Local entries appear only through a handler that is inside the locked callback. */
  lemma LocalChangesUnderLock(cfg: Config, s: State, l: Label)
    requires Inv(cfg, s) && Sound(cfg) && !cfg.readMayFail && Step(cfg, s, l).Some?
    requires LocalMap(cfg, Step(cfg, s, l).value.files) != LocalMap(cfg, s.files)
    ensures l.ThreadL? && l.tid in s.threads && InSection(s.threads[l.tid].pc)
    ensures s.locks[LockOf(cfg, s.threads[l.tid])] == l.tid
  {
    match l
    case ThreadL(tid, c) => EffectIsSafe(cfg, s, tid, c, EffectOf(cfg, s, tid, c).value);
    case JobL(tid, c) =>
    case ProcL(pid) =>
    case KillL(pid) =>
  }

  /** A sequence of specification states that moves atomically or stays. */
  ghost predicate Behaviour(cfg: Config, tr: seq<Spec.State>) {
    forall i :: 0 <= i < |tr| - 1 ==> tr[i + 1] == tr[i] || Spec.Next(cfg, tr[i], tr[i + 1])
  }

  /** Every run of the system, seen through Abs, is a behaviour of the first-write-wins map. */
  lemma {:induction false} RunRefines(cfg: Config, s: State, ls: seq<Label>) returns (tr: seq<Spec.State>)
    requires Inv(cfg, s) && Sound(cfg) && !cfg.readMayFail && Run(cfg, s, ls).Some?
    ensures |tr| == |ls| + 1 && tr[0] == Abs(cfg, s) && tr[|ls|] == Abs(cfg, Run(cfg, s, ls).value)
    ensures Behaviour(cfg, tr)
    decreases |ls|
  {
    hide Inv;
    hide Sound;
    hide Abs;
    hide Spec.Next;
    if ls == [] {
      tr := [Abs(cfg, s)];
    } else {
      StepKeepsInv(cfg, s, ls[0]);
      StepRefines(cfg, s, ls[0]);
      var rest := RunRefines(cfg, Step(cfg, s, ls[0]).value, ls[1..]);
      tr := [Abs(cfg, s)] + rest;
    }
  }

  /** Over a whole behaviour no local entry is ever changed or lost, and no answer taken back. */
  lemma {:induction false} BehavioursGrow(cfg: Config, tr: seq<Spec.State>, i: nat, j: nat)
    requires Behaviour(cfg, tr) && i <= j < |tr|
    ensures Spec.Extends(tr[i], tr[j]) && Spec.OnlyAnswers(tr[i], tr[j])
    decreases j - i
  {
    hide Spec.Next;
    if i < j {
      BehavioursGrow(cfg, tr, i, j - 1);
      assert j - 1 < |tr| - 1;
      if tr[j] != tr[j - 1] {
        assert Spec.Next(cfg, tr[j - 1], tr[j]);
        Spec.FirstWriteWins(cfg, tr[j - 1], tr[j]);
        Spec.AnswersStand(cfg, tr[j - 1], tr[j]);
      }
      GrowsThrough(tr[i], tr[j - 1], tr[j]);
    }
  }

  lemma GrowsThrough(a: Spec.State, b: Spec.State, c: Spec.State)
    requires Spec.Extends(a, b) && Spec.OnlyAnswers(a, b)
    requires b == c || (Spec.Extends(b, c) && Spec.OnlyAnswers(b, c))
    ensures Spec.Extends(a, c) && Spec.OnlyAnswers(a, c)
  {
  }
}
