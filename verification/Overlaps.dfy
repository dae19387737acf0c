/**
  The limits of the Backend contract. An upload outlives the lock, so once its entry cannot be looked up, because the
  metadata failed to be written or to be read, or names no output, the next PUT of the action calls the backend again.
 */
module Overlaps {
  import opened Basics
  import opened Disk
  import opened Protocol
  import opened Exclusion
  import opened Safety
  import opened Uploads
  import opened Drain
  import opened Solo

  const ID: ActionID := [1]

  function Put(outputID: Bytes): Request {
    Request(1, CmdPut, ID, outputID, None, 0)
  }

  function EntryFor(outputID: Bytes): Entry {
    Entry(outputID, [], 0, 0)
  }

  /** Two processes on an empty directory, each about to be told the same PUT. */
  function Start(outputID: Bytes): State {
    State(map[], map[], map[], map[], map[], map[0 := Fresh(Put(outputID)), 1 := Fresh(Put(outputID))], [])
  }

  /** An entry that was just written may not be found. */
  predicate Forgets(cfg: Config, outputID: Bytes) {
    cfg.metaMayFail || cfg.readMayFail || outputID == []
  }

  // ---------------------------------------------------------------- the local half of a PUT

  /** The lookup misses and the data file is written. */
  lemma WriteData(cfg: Config, start: State, s0: State, pid: nat, outputID: Bytes) returns (s: State, v: View)
    requires From(cfg, start, s0) && pid in s0.procs && s0.procs[pid] == Fresh(Put(outputID)) && s0.locks == map[]
    requires CanMiss(cfg, At(s0.files, ID))
    ensures Alone(cfg, start, s0, s, pid, NewThread(Put(outputID)).(pc := MetaCreating, entry := EntryFor(outputID)), v)
    ensures v.meta == At(s0.files, ID).meta
  {
    hide Alone;
    hide From;
    hide CanMiss;
    v := At(s0.files, ID);
    var t := NewThread(Put(outputID));
    s := Boot(cfg, start, s0, pid, Put(outputID));
    s := Enter(cfg, start, s0, s, pid, t, v);
    s := MissAndRead(cfg, start, s0, s, pid, t.(pc := Checking), v, EntryFor(outputID));
    t := t.(pc := Creating, entry := EntryFor(outputID));
    s := WriteFileOf(cfg, start, s0, s, pid, t, v);
    v := v.(data := Some([]), dataTmp := None);
    s := CleanUp(cfg, start, s0, s, pid, t.(pc := Cleaning(true)), v);
  }

  /** The metadata fails to be written, or is written and will not be found. */
  lemma WriteMeta(cfg: Config, start: State, s0: State, s: State, pid: nat, outputID: Bytes, v: View)
      returns (u: State, t: Thread, w: View)
    requires Sound(cfg) && Forgets(cfg, outputID) && CanMiss(cfg, v)
    requires Alone(cfg, start, s0, s, pid, NewThread(Put(outputID)).(pc := MetaCreating, entry := EntryFor(outputID)),
        v)
    ensures Alone(cfg, start, s0, u, pid, t, w) && t.pc.Deciding? && t.req == Put(outputID)
    ensures t.entry == EntryFor(outputID) && CanMiss(cfg, w)
  {
    assert cfg.parse(MetaText(cfg, EntryFor([]))).None?;
    hide Alone;
    hide Sound;
    t, w := NewThread(Put(outputID)).(pc := MetaCreating, entry := EntryFor(outputID)), v;
    if cfg.metaMayFail {
      u := Act(cfg, start, s0, s, pid, t, v, Fail, Effect(Written(t, false), Nop, None, None, None));
      t := Written(t, false);
    } else {
      hide MetaText;
      u := WriteMetaOf(cfg, start, s0, s, pid, t, v);
      t, w := Written(t, true), v.(meta := Some(MetaText(cfg, EntryFor(outputID))), metaTmp := None);
    }
  }

  lemma Decide(cfg: Config, start: State, s0: State, s: State, pid: nat, t: Thread, v: View) returns (u: State)
    requires Alone(cfg, start, s0, s, pid, t, v) && t.pc.Deciding? && !cfg.mode.ReadOnly? && CanUpload(cfg, t.entry)
    ensures Alone(cfg, start, s0, u, pid, t.(pc := PutCalling), v)
  {
    hide Alone;
    u := Act(cfg, start, s0, s, pid, t, v, Go, Move(t, PutCalling));
  }

  // ---------------------------------------------------------------- the call of the backend

  predicate HasSlots(cfg: Config) {
    cfg.mode.Async? && cfg.mode.capacity > 0
  }

  predicate UploadUnderWay(j: Job) {
    j.pc.Running? && j.id == ID
  }

  /** Process `pid` has called the backend since `s0`, and its upload is under way if there are slots. */
  predicate Called(cfg: Config, s0: State, s: State, pid: nat, started: bool) {
    && (started && HasSlots(cfg) ==> Tid(pid, 0) in s.jobs && UploadUnderWay(s.jobs[Tid(pid, 0)]))
    && (forall x :: x in s0.jobs && x != Tid(pid, 0) ==> x in s.jobs && s.jobs[x] == s0.jobs[x])
    && s.procs.Keys == s0.procs.Keys && (forall p :: p in s0.procs && p != pid ==> s.procs[p] == s0.procs[p])
    && s0.log + [Issued(Tid(pid, 0), ID)] <= s.log
  }

  /** The handler holds its lock; at Unlocking its upload has been started. */
  ghost predicate Holding(cfg: Config, start: State, s0: State, s: State, pid: nat, t: Thread, v: View) {
    && From(cfg, start, s) && pid in s.procs && Tid(pid, 0) in s.threads && s.threads[Tid(pid, 0)] == t
    && t.req.actionID == ID
    && s.locks == map[cfg.lockName(ID) := Tid(pid, 0)] && At(s.files, ID) == v
    && Called(cfg, s0, s, pid, t.pc.Unlocking?)
  }

  /** An action that says nothing about files: calling the backend, starting the goroutine, unlocking. */
  lemma Take(cfg: Config, start: State, s: State, tid: Tid, c: Choice, e: Effect) returns (u: State)
    requires From(cfg, start, s) && tid in s.threads && tid.pid in s.procs && InSection(s.threads[tid].pc)
    requires Finish(cfg, s.threads[tid], Full(cfg, s.procs[tid.pid]), c) == Some(e)
    requires !LooksUp(s.threads[tid].pc) && !WritesData(s.threads[tid].pc) && !WritesMeta(s.threads[tid].pc)
    ensures From(cfg, start, u) && u == Commit(cfg, s, tid, e)
  {
    hide From;
    u := Commit(cfg, s, tid, e);
    assert Step(cfg, s, ThreadL(tid, c)) == Some(u);
    FromStep(cfg, start, s, ThreadL(tid, c));
  }

  function PcAfterCall(cfg: Config): Pc {
    if cfg.mode.Sync? then Putting else if HasSlots(cfg) then Spawning else Unlocking
  }

  lemma Call(cfg: Config, start: State, s0: State, s: State, pid: nat, t: Thread, v: View) returns (u: State)
    requires Alone(cfg, start, s0, s, pid, t, v) && t.pc.PutCalling? && t.req.actionID == ID && !cfg.mode.ReadOnly?
    ensures Holding(cfg, start, s0, u, pid, t.(pc := PcAfterCall(cfg)), v)
  {
    hide From;
    var e := Move(t, PcAfterCall(cfg)).(event := Some(EvIssued(PcAfterCall(cfg).Spawning?)));
    assert Finish(cfg, t, Full(cfg, s.procs[pid]), Go) == Some(e);
    hide Finish;
    u := Take(cfg, start, s, Tid(pid, 0), Go, e);
  }

  /** The asynchronous writer starts its goroutine. */
  lemma Spawn(cfg: Config, start: State, s0: State, s: State, pid: nat, t: Thread, v: View) returns (u: State)
    requires Holding(cfg, start, s0, s, pid, t, v) && t.pc.Spawning? && CanUpload(cfg, t.entry)
    ensures Holding(cfg, start, s0, u, pid, t.(pc := Unlocking), v)
  {
    hide From;
    var e := Effect(t.(pc := Unlocking), Nop, Some(EvAccepted), Some(PutPayload(cfg, t.entry)), None);
    assert forall full :: Finish(cfg, t, full, Go) == Some(e);
    hide Finish;
    hide PutPayload;
    u := Take(cfg, start, s, Tid(pid, 0), Go, e);
  }

  /** The synchronous put comes back, unsuccessfully. */
  lemma PutFails(cfg: Config, start: State, s0: State, s: State, pid: nat, t: Thread, v: View) returns (u: State)
    requires Holding(cfg, start, s0, s, pid, t, v) && t.pc.Putting? && cfg.mode.Sync?
    ensures Holding(cfg, start, s0, u, pid, t.(pc := Unlocking), v)
  {
    hide From;
    var e := Move(t, Unlocking).(event := Some(EvInnerPut(false)));
    assert forall full :: Finish(cfg, t, full, Fail) == Some(e);
    hide Finish;
    u := Take(cfg, start, s, Tid(pid, 0), Fail, e);
  }

  lemma Unlock(cfg: Config, start: State, s0: State, s: State, pid: nat, t: Thread, v: View) returns (u: State)
    requires Holding(cfg, start, s0, s, pid, t, v) && t.pc.Unlocking?
    ensures From(cfg, start, u) && u.locks == map[] && At(u.files, ID) == v && Called(cfg, s0, u, pid, true)
    ensures u.remote == s.remote
  {
    hide From;
    var e := Move(t, Answering);
    assert forall full :: Finish(cfg, t, full, Go) == Some(e);
    hide Finish;
    u := Take(cfg, start, s, Tid(pid, 0), Go, e);
  }

  lemma CallAndUnlock(cfg: Config, start: State, s0: State, s: State, pid: nat, t: Thread, v: View) returns (u: State)
    requires Alone(cfg, start, s0, s, pid, t, v) && t.pc.PutCalling? && t.req.actionID == ID && !cfg.mode.ReadOnly?
    requires CanUpload(cfg, t.entry)
    ensures From(cfg, start, u) && u.locks == map[] && At(u.files, ID) == v && Called(cfg, s0, u, pid, true)
  {
    hide Alone;
    hide Holding;
    hide Called;
    u := Call(cfg, start, s0, s, pid, t, v);
    if cfg.mode.Sync? {
      u := PutFails(cfg, start, s0, u, pid, t.(pc := Putting), v);
    } else if HasSlots(cfg) {
      u := Spawn(cfg, start, s0, u, pid, t.(pc := Spawning), v);
    }
    u := Unlock(cfg, start, s0, u, pid, t.(pc := Unlocking), v);
  }

  /** A process starts, handles its PUT, calls the backend and releases the lock; the next lookup may miss. */
  lemma OnePut(cfg: Config, start: State, s0: State, pid: nat, outputID: Bytes) returns (u: State)
    requires Sound(cfg) && Forgets(cfg, outputID) && !cfg.mode.ReadOnly?
    requires From(cfg, start, s0) && pid in s0.procs && s0.procs[pid] == Fresh(Put(outputID)) && s0.locks == map[]
    requires CanMiss(cfg, At(s0.files, ID))
    ensures From(cfg, start, u) && u.locks == map[] && CanMiss(cfg, At(u.files, ID)) && Called(cfg, s0, u, pid, true)
  {
    hide Alone;
    hide From;
    hide Called;
    hide Sound;
    hide Forgets;
    var s, v := WriteData(cfg, start, s0, pid, outputID);
    assert CanMiss(cfg, v);
    hide CanMiss;
    var t;
    s, t, v := WriteMeta(cfg, start, s0, s, pid, outputID, v);
    s := Decide(cfg, start, s0, s, pid, t, v);
    u := CallAndUnlock(cfg, start, s0, s, pid, t.(pc := PutCalling), v);
  }

  lemma StartIsInit(cfg: Config, outputID: Bytes)
    ensures Init(cfg, Start(outputID)) && (outputID != [] ==> Named(Start(outputID).procs, Start(outputID).remote))
  {
    forall id ensures Whole(cfg, At(Start(outputID).files, id)) {}
  }

  /** Two processes, one action: two calls of the backend, and two uploads at once if puts are asynchronous. */
  lemma TwoPuts(cfg: Config, outputID: Bytes) returns (s: State)
    requires Sound(cfg) && Forgets(cfg, outputID) && !cfg.mode.ReadOnly?
    ensures From(cfg, Start(outputID), s) && !IssuedOnce(s.log)
    ensures HasSlots(cfg) ==> PutInFlight(s, Tid(0, 0), ID) && PutInFlight(s, Tid(1, 0), ID)
  {
    hide From;
    hide Sound;
    var s0 := Start(outputID);
    FromSelf(cfg, s0);
    assert CanMiss(cfg, At(s0.files, ID));
    var a := OnePut(cfg, s0, s0, 0, outputID);
    s := OnePut(cfg, s0, a, 1, outputID);
    var i, j := 0, |a.log|;
    assert a.log[i] == Issued(Tid(0, 0), ID) && s.log[i] == a.log[i] && s.log[j] == Issued(Tid(1, 0), ID);
  }

  // ---------------------------------------------------------------- exactly when

  /** The Backend contract's promise: no two operations of one kind for one action ID are in flight. */
  ghost predicate NoOverlap(s: State) {
    && (forall a, b, id :: PutInFlight(s, a, id) && PutInFlight(s, b, id) ==> a == b)
    && (forall a, b, id :: GetInFlight(s, a, id) && GetInFlight(s, b, id) ==> a == b)
  }

  /** An upload under way holds a slot, so there are slots. */
  lemma RunningHoldsSlot(cfg: Config, s: State, tid: Tid)
    requires AsyncInv(cfg, s) && tid in s.jobs && s.jobs[tid].pc.Running?
    ensures HasSlots(cfg)
  {
    assert JobOwned(s.threads, s.procs, tid);
    assert Conserved(cfg, s.procs[tid.pid], tid.pid, s.threads, s.jobs);
    assert tid in Holders(s.jobs, tid.pid);
  }

  /** A synchronous put runs under the lock of its action. */
  lemma LockedPutsAreAlone(cfg: Config, s: State, a: Tid, b: Tid, id: ActionID)
    requires AsyncInv(cfg, s) && PutInFlight(s, a, id) && PutInFlight(s, b, id)
    ensures a == b || HasSlots(cfg)
  {
    if a in s.jobs && s.jobs[a].pc.Running? {
      RunningHoldsSlot(cfg, s, a);
    } else if b in s.jobs && s.jobs[b].pc.Running? {
      RunningHoldsSlot(cfg, s, b);
    } else {
      MutualExclusion(cfg, s, a, b);
    }
  }

  lemma RunIsAlone(cfg: Config, s0: State, ls: seq<Label>)
    requires Init(cfg, s0) && Run(cfg, s0, ls).Some? && !HasSlots(cfg)
    ensures NoOverlap(Run(cfg, s0, ls).value)
  {
    InitIsAsync(cfg, s0);
    RunKeepsAsync(cfg, s0, ls);
    var s := Run(cfg, s0, ls).value;
    hide Run;
    forall a, b, id | PutInFlight(s, a, id) && PutInFlight(s, b, id) ensures a == b {
      LockedPutsAreAlone(cfg, s, a, b, id);
    }
    forall a, b, id | GetInFlight(s, a, id) && GetInFlight(s, b, id) ensures a == b {
      MutualExclusion(cfg, s, a, b);
    }
  }

  ghost predicate AlwaysAlone(cfg: Config, s0: State) {
    forall s :: From(cfg, s0, s) ==> NoOverlap(s)
  }

  ghost predicate AlwaysOnce(cfg: Config, s0: State) {
    forall s :: From(cfg, s0, s) ==> IssuedOnce(s.log)
  }

  /**
    Over all runs, whatever output IDs clients send, operations on one action never overlap exactly when puts are
    synchronous, skipped, or all rejected.
   */
  lemma NoOverlapIff(cfg: Config)
    requires Sound(cfg)
    ensures (forall s0 :: Init(cfg, s0) ==> AlwaysAlone(cfg, s0)) <==> !HasSlots(cfg)
  {
    hide Sound;
    hide Init;
    hide From;
    hide PutInFlight;
    hide GetInFlight;
    if HasSlots(cfg) {
      StartIsInit(cfg, []);
      var s := TwoPuts(cfg, []);
      assert !NoOverlap(s);
      assert !AlwaysAlone(cfg, Start([]));
    } else {
      forall s0 | Init(cfg, s0) ensures AlwaysAlone(cfg, s0) {
        RunsAreAlone(cfg, s0);
      }
    }
  }

  lemma RunsAreAlone(cfg: Config, s0: State)
    requires Init(cfg, s0)
    requires !HasSlots(cfg) || (Sound(cfg) && Reliable(cfg) && Named(s0.procs, s0.remote))
    ensures AlwaysAlone(cfg, s0)
  {
    forall s | From(cfg, s0, s) ensures NoOverlap(s) {
      var ls :| Run(cfg, s0, ls) == Some(s);
      if !HasSlots(cfg) {
        RunIsAlone(cfg, s0, ls);
      } else {
        BackendContract(cfg, s0, ls);
      }
    }
  }

  /** With non-empty output IDs everywhere, also when metadata can always be written and read, and only then. */
  lemma NamedNoOverlapIff(cfg: Config)
    requires Sound(cfg)
    ensures (forall s0 :: Init(cfg, s0) && Named(s0.procs, s0.remote) ==> AlwaysAlone(cfg, s0))
      <==> !HasSlots(cfg) || Reliable(cfg)
  {
    hide Sound;
    hide Init;
    hide Named;
    hide From;
    hide PutInFlight;
    hide GetInFlight;
    if HasSlots(cfg) && !Reliable(cfg) {
      StartIsInit(cfg, [2]);
      var s := TwoPuts(cfg, [2]);
      assert !NoOverlap(s);
      assert !AlwaysAlone(cfg, Start([2]));
    } else {
      forall s0 | Init(cfg, s0) && Named(s0.procs, s0.remote) ensures AlwaysAlone(cfg, s0) {
        RunsAreAlone(cfg, s0);
      }
    }
  }

  // ---------------------------------------------------------------- one call per action

  predicate NoCalls(log: seq<Event>) {
    forall i :: 0 <= i < |log| ==> !log[i].Issued?
  }

  lemma OnlyCallersCall(cfg: Config, t: Thread, v: View, rem: Option<Record>, full: bool, c: Choice)
    requires PcOk(cfg, t) && cfg.mode.ReadOnly? && Advance(cfg, t, v, rem, full, c).Some?
    ensures !Issues(Advance(cfg, t, v, rem, full, c).value)
  {
  }

  /** A read-only server never calls the backend's Put. */
  lemma StepKeepsNoCalls(cfg: Config, s: State, l: Label)
    requires Base(cfg, s) && cfg.mode.ReadOnly? && NoCalls(s.log) && Step(cfg, s, l).Some?
    ensures NoCalls(Step(cfg, s, l).value.log)
  {
    match l
    case ThreadL(tid, c) =>
      var t := s.threads[tid];
      assert PcOk(cfg, t);
      OnlyCallersCall(cfg, t, At(s.files, t.req.actionID), Get(s.remote, t.req.actionID), Full(cfg, s.procs[tid.pid]),
          c);
      hide Advance;
      hide Base;
      hide PcOk;
    case JobL(tid, c) =>
      hide Base;
    case ProcL(pid) =>
      hide Base;
    case KillL(pid) =>
      hide Base;
  }

  lemma {:induction false} RunKeepsNoCalls(cfg: Config, s: State, ls: seq<Label>)
    requires Base(cfg, s) && cfg.mode.ReadOnly? && NoCalls(s.log) && Run(cfg, s, ls).Some?
    ensures NoCalls(Run(cfg, s, ls).value.log)
    decreases |ls|
  {
    hide Base;
    hide Step;
    if ls != [] {
      StepKeepsNoCalls(cfg, s, ls[0]);
      StepKeepsBase(cfg, s, ls[0]);
      RunKeepsNoCalls(cfg, Step(cfg, s, ls[0]).value, ls[1..]);
    }
  }

  lemma RunsCallOnce(cfg: Config, s0: State)
    requires Init(cfg, s0)
    requires cfg.mode.ReadOnly? || (Sound(cfg) && Reliable(cfg) && Named(s0.procs, s0.remote))
    ensures AlwaysOnce(cfg, s0)
  {
    forall s | From(cfg, s0, s) ensures IssuedOnce(s.log) {
      var ls :| Run(cfg, s0, ls) == Some(s);
      if cfg.mode.ReadOnly? {
        RunKeepsNoCalls(cfg, s0, ls);
      } else {
        BackendContract(cfg, s0, ls);
      }
    }
  }

  /**
    Over the life of a directory no action is handed to the backend twice: with any output IDs exactly when the server
    is read-only, with non-empty ones exactly when it is read-only or metadata can always be written and read.
   */
  lemma CalledOnceIff(cfg: Config)
    requires Sound(cfg)
    ensures (forall s0 :: Init(cfg, s0) ==> AlwaysOnce(cfg, s0)) <==> cfg.mode.ReadOnly?
    ensures (forall s0 :: Init(cfg, s0) && Named(s0.procs, s0.remote) ==> AlwaysOnce(cfg, s0))
      <==> cfg.mode.ReadOnly? || Reliable(cfg)
  {
    hide Sound;
    hide Init;
    hide Named;
    hide From;
    hide IssuedOnce;
    if !cfg.mode.ReadOnly? {
      StartIsInit(cfg, []);
      var s := TwoPuts(cfg, []);
      assert !AlwaysOnce(cfg, Start([]));
      if !Reliable(cfg) {
        StartIsInit(cfg, [2]);
        var u := TwoPuts(cfg, [2]);
        assert !AlwaysOnce(cfg, Start([2]));
      }
    }
    forall s0 | Init(cfg, s0) && (cfg.mode.ReadOnly? || (Reliable(cfg) && Named(s0.procs, s0.remote)))
      ensures AlwaysOnce(cfg, s0)
    {
      RunsCallOnce(cfg, s0);
    }
  }
}
