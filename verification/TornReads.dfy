/**
  The limits of crash safety. localCache.check treats any failure to read a metadata file as a miss, so a transient
  read error lets a handler overwrite an entry that is readable again a moment later. And a raw fill believes the size
  that the remote store states. Without these two no entry is ever torn.
 */
module TornReads {
  import opened Basics
  import opened Disk
  import opened Protocol
  import opened Solo
  import Origins

  const ID: ActionID := [1]
  const PUT := Request(1, CmdPut, ID, [2], Some([7]), 1)
  const NEW := Entry([2], [7], 1, 0)

  /** An entry is on disk, and one process is about to be told to PUT other bytes under its action ID. */
  function Before(cfg: Config, remote: map<ActionID, Record>, was: Entry): State {
    State(map[ID := View(Some(was.bytes), None, Some(MetaText(cfg, was)), None)], remote, map[], map[], map[],
        map[0 := Fresh(PUT)], [])
  }

  lemma BeforeIsInit(cfg: Config, remote: map<ActionID, Record>, was: Entry)
    requires Sound(cfg) && Fits(was.size, was.bytes)
    ensures Init(cfg, Before(cfg, remote, was)) && FilesFit(cfg, Before(cfg, remote, was).files)
  {
    forall id ensures Consistent(cfg, At(Before(cfg, remote, was).files, id)) {}
    assert forall id :: Consistent(cfg, At(Before(cfg, remote, was).files, id)) ==> Whole(cfg, At(Before(cfg, remote,
        was).files, id));
  }

  /** The metadata read fails, so the handler renames its own data into place while the old metadata still stands. */
  lemma Overwrite(cfg: Config, remote: map<ActionID, Record>, was: Entry) returns (s: State)
    requires Sound(cfg) && cfg.readMayFail
    ensures From(cfg, Before(cfg, remote, was), s)
    ensures At(s.files, ID) == View(Some([7]), None, Some(MetaText(cfg, was)), None)
  {
    var s0 := Before(cfg, remote, was);
    var v := At(s0.files, ID);
    FromSelf(cfg, s0);
    hide Alone;
    hide From;
    hide MetaText;
    s := Boot(cfg, s0, s0, 0, PUT);
    var t := NewThread(PUT);
    s := Enter(cfg, s0, s0, s, 0, t, v);
    assert PUT.body.value[..1] == [7];
    s := MissAndRead(cfg, s0, s0, s, 0, t.(pc := Checking), v, NEW);
    s := WriteFileOf(cfg, s0, s0, s, 0, t.(pc := Creating, entry := NEW), v);
    AloneMeans(cfg, s0, s0, s, 0, t.(pc := Cleaning(true), entry := NEW), v.(data := Some([7]), dataTmp := None));
  }

  lemma AloneMeans(cfg: Config, start: State, s0: State, s: State, pid: nat, t: Thread, v: View)
    requires Alone(cfg, start, s0, s, pid, t, v)
    ensures From(cfg, start, s) && At(s.files, t.req.actionID) == v
  {
    hide From;
  }

  /** One failed read of existing metadata leaves an entry whose size is not that of its data. */
  lemma TornEntry(cfg: Config, remote: map<ActionID, Record>) returns (s0: State, s: State)
    requires Sound(cfg) && cfg.readMayFail
    ensures Init(cfg, s0) && FilesFit(cfg, s0.files) && s0.remote == remote && From(cfg, s0, s)
    ensures !CrashSafe(cfg, s0, s)
  {
    var was := Entry([2], [], 0, 0);
    s0 := Before(cfg, remote, was);
    BeforeIsInit(cfg, remote, was);
    s := Overwrite(cfg, remote, was);
    hide From;
    hide Init;
    assert cfg.parse(cfg.format(Metadata([2], 0, 0))) == Some(Metadata([2], 0, 0));
    assert !Consistent(cfg, At(s.files, ID));
  }

  const OLD := Entry([3], [9], 1, 0)

  /** Or an entry of the right size that nobody ever wrote: one writer's data under another's output ID. */
  lemma MixedEntry(cfg: Config) returns (s0: State, s: State)
    requires Sound(cfg) && cfg.readMayFail
    ensures Init(cfg, s0) && FilesFit(cfg, s0.files) && From(cfg, s0, s)
    ensures Consistent(cfg, At(s.files, ID)) && LocalEntry(cfg, At(s.files, ID)) == Some(Entry([3], [7], 1, 0))
    ensures !FromOneWrite(cfg, s0, ID, Entry([3], [7], 1, 0))
  {
    s0 := Before(cfg, map[], OLD);
    BeforeIsInit(cfg, map[], OLD);
    s := Overwrite(cfg, map[], OLD);
    hide From;
    hide Init;
    assert cfg.parse(cfg.format(Metadata([3], 1, 0))) == Some(Metadata([3], 1, 0));
    NobodyWroteIt(cfg, s0);
  }

  lemma NobodyWroteIt(cfg: Config, s0: State)
    requires Sound(cfg) && s0 == Before(cfg, map[], OLD)
    ensures !FromOneWrite(cfg, s0, ID, Entry([3], [7], 1, 0))
  {
    var e := Entry([3], [7], 1, 0);
    assert At(s0.files, ID).data == Some([9]);
    forall x: Entry | PutOf(s0.procs, ID, x) ensures x.outputID == [2] {}
    forall rec | RemoteFrom(cfg, s0, ID, rec) ensures !FillsIn(cfg, rec, e) {
      var put :| PutOf(s0.procs, ID, put) && Sends(cfg, put, Sent(rec));
    }
  }

  // ---------------------------------------------------------------- sizes that the remote store states

  function Get1(id: ActionID): Request {
    Request(1, CmdGet, id, [], None, 0)
  }

  /** Nothing on disk, and one process about to be told to GET `id`. */
  function Empty(remote: map<ActionID, Record>, id: ActionID): State {
    State(map[], remote, map[], map[], map[], map[0 := Fresh(Get1(id))], [])
  }

  lemma EmptyIsInit(cfg: Config, remote: map<ActionID, Record>, id: ActionID)
    ensures Init(cfg, Empty(remote, id)) && FilesFit(cfg, Empty(remote, id).files)
  {
    forall x ensures Consistent(cfg, At(Empty(remote, id).files, x)) && Whole(cfg, At(Empty(remote, id).files, x)) {}
  }

  /** A GET with every call succeeding puts what the remote object fills in into the data file. */
  lemma FillData(cfg: Config, remote: map<ActionID, Record>, id: ActionID, e: Entry) returns (s: State)
    requires id in remote && id != [] && FillsIn(cfg, remote[id], e)
    ensures Alone(cfg, Empty(remote, id), Empty(remote, id), s, 0,
        NewThread(Get1(id)).(pc := MetaCreating, entry := e), NO_FILES.(data := Some(e.bytes)))
  {
    var s0 := Empty(remote, id);
    FromSelf(cfg, s0);
    hide Alone;
    hide From;
    hide FillsIn;
    var t := NewThread(Get1(id));
    s := Boot(cfg, s0, s0, 0, Get1(id));
    s := Enter(cfg, s0, s0, s, 0, t, NO_FILES);
    s := MissAndFetch(cfg, s0, s0, s, 0, t.(pc := Checking), NO_FILES, remote[id], e);
    t := t.(pc := Creating, entry := e);
    s := WriteFileOf(cfg, s0, s0, s, 0, t, NO_FILES);
    s := CleanUp(cfg, s0, s0, s, 0, t.(pc := Cleaning(true)), NO_FILES.(data := Some(e.bytes)));
  }

  /** A GET with every call succeeding: a remote object with a wrong size becomes a local entry with a wrong size. */
  lemma UnfitFill(cfg: Config, remote: map<ActionID, Record>, id: ActionID, e: Entry) returns (s: State)
    requires Sound(cfg) && id in remote && id != [] && e.outputID != [] && FillsIn(cfg, remote[id], e)
    ensures From(cfg, Empty(remote, id), s) && LocalEntry(cfg, At(s.files, id)) == Some(e)
  {
    var s0 := Empty(remote, id);
    assert cfg.parse(MetaText(cfg, e)) == Some(Metadata(e.outputID, e.size, e.time));
    hide Alone;
    hide From;
    hide Sound;
    hide FillsIn;
    hide MetaText;
    var t := NewThread(Get1(id)).(pc := MetaCreating, entry := e);
    var v := NO_FILES.(data := Some(e.bytes));
    s := FillData(cfg, remote, id, e);
    s := WriteMetaOf(cfg, s0, s0, s, 0, t, v);
    AloneMeans(cfg, s0, s0, s, 0, Written(t, true), v.(meta := Some(MetaText(cfg, e)), metaTmp := None));
  }

  lemma UnfitRemote(cfg: Config, remote: map<ActionID, Record>) returns (s0: State, s: State)
    requires Sound(cfg) && !FillsFit(cfg, remote)
    ensures Init(cfg, s0) && FilesFit(cfg, s0.files) && s0.remote == remote && From(cfg, s0, s)
    ensures !CrashSafe(cfg, s0, s)
  {
    var id, e: Entry :| id in remote && id != [] && e.outputID != [] && FillsIn(cfg, remote[id], e)
      && !Fits(e.size, e.bytes);
    s0 := Empty(remote, id);
    EmptyIsInit(cfg, remote, id);
    s := UnfitFill(cfg, remote, id, e);
    hide From;
    hide Init;
    assert !Consistent(cfg, At(s.files, id));
  }

  // ---------------------------------------------------------------- exactly when

  ghost predicate SafeFrom(cfg: Config, s0: State) {
    forall s :: From(cfg, s0, s) ==> CrashSafe(cfg, s0, s)
  }

  /**
    Every run over this remote store is crash-safe, whatever the requests, the schedule and the directory, as long as
    the directory does not have wrong sizes to begin with.
   */
  ghost predicate SafeOver(cfg: Config, remote: map<ActionID, Record>) {
    forall s0 :: Init(cfg, s0) && FilesFit(cfg, s0.files) && s0.remote == remote ==> SafeFrom(cfg, s0)
  }

  lemma SafeWithReads(cfg: Config, s0: State)
    requires Sound(cfg) && !cfg.readMayFail && Init(cfg, s0) && FilesFit(cfg, s0.files) && FillsFit(cfg, s0.remote)
    ensures SafeFrom(cfg, s0)
  {
    forall s | From(cfg, s0, s) ensures CrashSafe(cfg, s0, s) {
      var ls :| Run(cfg, s0, ls) == Some(s);
      Origins.CrashSafety(cfg, s0, ls);
    }
  }

  /**
    No entry is ever torn, in size or in origin, exactly when no read of an existing metadata file can fail and every
    remote object that fills a readable entry has the size it states.
   */
  lemma CrashSafeIff(cfg: Config, remote: map<ActionID, Record>)
    requires Sound(cfg)
    ensures SafeOver(cfg, remote) <==> !cfg.readMayFail && FillsFit(cfg, remote)
  {
    hide Sound;
    hide Init;
    hide From;
    hide FillsFit;
    hide FilesFit;
    hide CrashSafe;
    if cfg.readMayFail {
      var s0, s := TornEntry(cfg, remote);
      assert !SafeFrom(cfg, s0);
    } else if !FillsFit(cfg, remote) {
      var s0, s := UnfitRemote(cfg, remote);
      assert !SafeFrom(cfg, s0);
    } else {
      forall s0 | Init(cfg, s0) && FilesFit(cfg, s0.files) && s0.remote == remote ensures SafeFrom(cfg, s0) {
        SafeWithReads(cfg, s0);
      }
    }
  }
}
