/**
  CacheProg's handlers as the source writes them (server.go:388-660): sequential code over the lock, the local cache and
  the S3 backend. Each is proved to do to the files exactly what LockedSection.Outcome allows, which is also what the
  step machine's handlers do under any interleaving; and, since every call of the environment is on record, to end as
  it must given which of them failed, with one backend call where there has to be one and none elsewhere.
 */
module Server {
  import opened Basics
  import opened Disk
  import opened Protocol
  import opened LockedSection
  import opened Deployment
  import LocalCache
  import Paths
  import Counters
  import MetadataText
  import S3
  import Hex

  // ---------------------------------------------------------------- the lock

  datatype LockEvent = Acquired(key: string) | Refused(key: string) | Released(key: string)

  /** locking.Group: DoWithLock takes the key's lock, runs the callback and gives the lock back, or times out. */
  class Locker {
    ghost var log: seq<LockEvent>

    constructor ()
      ensures log == []
    {
      log := [];
    }

    method Acquire(key: string) returns (ok: bool)
      modifies this
      ensures log == old(log) + [if ok then Acquired(key) else Refused(key)]
    {
      ok := *;
      log := log + [if ok then Acquired(key) else Refused(key)];
    }

    method Release(key: string)
      modifies this
      ensures log == old(log) + [Released(key)]
    {
      log := log + [Released(key)];
    }

    /** The key's lock was taken last. */
    ghost predicate Holds(key: string)
      reads this
    {
      log != [] && log[|log| - 1] == Acquired(key)
    }
  }

  // ---------------------------------------------------------------- what a handler did

  /** putResult, or the error of the function that runs under the lock. */
  datatype PutResult = Ok(diskPath: string) | Err(fault: Fault)

  /** getResult, or the error of the function that runs under the lock. */
  datatype GetResult = Hit(meta: Metadata, diskPath: string, fromLocalCache: bool) | Miss | GetErr(fault: Fault)

  /** What surrounds a handler: its action's files, the failed file calls, the puts not made, the backend's calls. */
  datatype Scene = Scene(view: View, failedCalls: nat, skipped: nat, puts: seq<S3.PutCall>, gets: seq<S3.GetCall>)

  /** How far a PUT got. `logged` says that writing the metadata failed, which is only logged. */
  datatype PutRun =
    | Existing(meta: Metadata)
    | TooShort
    | NotWritten
    | Skipped(logged: bool)
    | NotCompressed(logged: bool)
    | Sent(logged: bool, call: S3.PutCall)

  /** How far a GET got. */
  datatype GetRun =
    | HitHere(meta: Metadata)
    | NoAnswer
    | Nothing
    | Garbled(rec: Record)
    | NotCached(rec: Record)
    | HitThere(rec: Record, entry: Entry, logged: bool)

  /** The bytes a PUT brings. */
  function BodyOf(r: Request): Bytes
    requires !ShortBody(r)
  {
    if r.bodySize > 0 && r.body.Some? then r.body.value[..r.bodySize] else []
  }

  /** The data file holds `bytes`, and the metadata file `m` unless writing it failed. */
  predicate Installed(v: View, w: View, bytes: Bytes, m: Metadata, logged: bool) {
    w == v.(data := Some(bytes), dataTmp := None,
            meta := if logged then v.meta else Some(MetadataText.Format(m)),
            metaTmp := if logged then w.metaTmp else None)
  }

  function PathFor(dir: string, id: ActionID): string
    requires id != []
  {
    Paths.Directory(dir, id[0]) + "/v2" + Hex.Encode(id)
  }

  /** The entry a lookup finds, in terms of the metadata file's own codec. */
  function EntryOf(v: View, m: Metadata): Entry {
    Entry(m.outputID, if v.data.Some? then v.data.value else [], m.size, m.time)
  }

  class CacheProg {
    const local: LocalCache.Cache
    const backend: S3.Bucket
    const locker: Locker
    const seenActionIDs: Counters.SeenActionIDs
    const lz4: Codec
    const compression: bool
    const readOnly: bool

    var putCount: nat
    var duplicatePuts: nat
    var skippedPuts: nat
    var getCount: nat
    var duplicateGets: nat
    var hitCount: nat
    var localCacheHits: nat
    var backendCacheHits: nat

    constructor (local: LocalCache.Cache, backend: S3.Bucket, locker: Locker, lz4: Codec, compression: bool,
                 readOnly: bool)
      ensures this.local == local && this.backend == backend && this.locker == locker && this.lz4 == lz4
      ensures this.compression == compression && this.readOnly == readOnly
      ensures fresh(seenActionIDs) && seenActionIDs.ids == map[]
      ensures putCount == duplicatePuts == skippedPuts == getCount == duplicateGets == 0
      ensures hitCount == localCacheHits == backendCacheHits == 0
    {
      this.local, this.backend, this.locker, this.lz4 := local, backend, locker, lz4;
      this.compression, this.readOnly := compression, readOnly;
      seenActionIDs := new Counters.SeenActionIDs();
      putCount, duplicatePuts, skippedPuts, getCount, duplicateGets := 0, 0, 0, 0, 0;
      hitCount, localCacheHits, backendCacheHits := 0, 0, 0;
    }

    /**
      The step machine's configuration of this server, with synchronous puts; `failed` says that a metadata file was
      there but could not be read.
     */
    ghost function Cfg(failed: bool): Config {
      RealConfig(local.cacheDir, lz4, compression, if readOnly then ReadOnly else Sync, s => s, Faults(true, true,
          failed, true))
    }

    ghost function View(id: ActionID): Disk.View
      requires id != []
      reads local.fs`files
    {
      local.View(id)
    }

    ghost function Remote(id: ActionID): Option<Record>
      reads backend`objects
    {
      S3.RemoteAt(backend.objects, backend.prefix, id)
    }

    ghost function Now(id: ActionID): Scene
      requires id != []
      reads this`skippedPuts, local.fs`files, local.fs`failedCalls, backend`puts, backend`gets
    {
      Scene(View(id), local.fs.failedCalls, skippedPuts, backend.puts, backend.gets)
    }

    /** The bucket has under every action what it had `before`, but for the object that the call stored. */
    ghost predicate RemoteBecomes(before: S3.Objects, id: ActionID, call: Option<S3.PutCall>)
      reads backend`objects
    {
      forall x :: S3.RemoteAt(backend.objects, backend.prefix, x) ==
        if call.Some? && call.value.stored && call.value.body.Some? && x == id
        then Some(Record(call.value.outputID, call.value.body.value, call.value.size, call.value.now))
        else S3.RemoteAt(before, backend.prefix, x)
    }

    // -------------------------------------------------------------- what PUT and GET must do

    /** The local half of a PUT went through. */
    ghost predicate Wrote(req: Request, now: int64, logged: bool, a: Scene, b: Scene) {
      && !ShortBody(req) && b.failedCalls == a.failedCalls + (if logged then 1 else 0) && b.gets == a.gets
      && Installed(a.view, b.view, BodyOf(req), Metadata(req.outputID, req.bodySize, now), logged)
    }

    /** The one call of the backend that is due: the body, compressed if that is asked for, under the action's key. */
    ghost predicate IsUpload(req: Request, later: int64, call: S3.PutCall) {
      && !ShortBody(req) && call.body.Some?
      && call.key == S3.BackendKey(req.actionID) && call.outputID == req.outputID && call.now == later
      && if compression && req.bodySize > 0 then
           lz4.compress(BodyOf(req)) == Some(call.body.value) && call.size == |call.body.value|
         else call.body.value == BodyOf(req) && call.size == req.bodySize
    }

    /**
      What a PUT under its lock does, returns, and leaves, from `a` to `b`: it is determined by what it finds and by
      which calls fail. `unread` says that the metadata file was there but could not be read.
     */
    ghost predicate PutDid(did: PutRun, unread: bool, req: Request, now: int64, later: int64, a: Scene, b: Scene,
                           r: PutResult)
      requires req.actionID != []
    {
      var path := PathFor(local.cacheDir, req.actionID);
      var c := a.(failedCalls := a.failedCalls + (if unread then 1 else 0));
      && (did.Existing? <==> !unread && LocalCache.ReadBack(a.view).Some?)
      && match did
         case Existing(m) => LocalCache.ReadBack(a.view) == Some(m) && b == a && r == Ok(path)
         case TooShort => ShortBody(req) && b == c && r == Err(BodyShort)
         case NotWritten =>
           && !ShortBody(req) && r == Err(LocalWriteFailed)
           && b == c.(failedCalls := c.failedCalls + 1, view := a.view.(dataTmp := b.view.dataTmp))
         case Skipped(logged) =>
           readOnly && Wrote(req, now, logged, c, b) && b.skipped == a.skipped + 1 && b.puts == a.puts && r == Ok(path)
         case NotCompressed(logged) =>
           && !readOnly && Wrote(req, now, logged, c, b) && b.skipped == a.skipped && b.puts == a.puts
           && compression && req.bodySize > 0 && lz4.compress(BodyOf(req)).None? && r == Err(CompressFailed)
         case Sent(logged, call) =>
           && !readOnly && Wrote(req, now, logged, c, b) && b.skipped == a.skipped
           && IsUpload(req, later, call) && b.puts == a.puts + [call] && r == Ok(path)
    }

    /** The same for a GET; `rem` is the object that the bucket has under the action's key. */
    ghost predicate GetDid(did: GetRun, unread: bool, req: Request, rem: Option<Record>, a: Scene, b: Scene,
                           r: GetResult)
      requires req.actionID != []
    {
      var path := PathFor(local.cacheDir, req.actionID);
      var c := a.(failedCalls := a.failedCalls + (if unread then 1 else 0),
                  gets := a.gets + [S3.GetCall(S3.BackendKey(req.actionID), !did.NoAnswer?)]);
      && (did.HitHere? <==> !unread && LocalCache.ReadBack(a.view).Some?)
      && match did
         case HitHere(m) => LocalCache.ReadBack(a.view) == Some(m) && b == a && r == Hit(m, path, true)
         case NoAnswer => b == c && r == GetErr(BackendGetFailed)
         case Nothing => rem.None? && b == c && r == Miss
         case Garbled(rec) =>
           && rem == Some(rec) && compression && rec.size > 0 && lz4.decompress(rec.body).None?
           && b == c && r == GetErr(DecompressFailed)
         case NotCached(rec) =>
           && rem == Some(rec) && (exists e :: FillsIn(Cfg(unread), rec, e)) && r == GetErr(LocalWriteFailed)
           && b == c.(failedCalls := c.failedCalls + 1, view := a.view.(dataTmp := b.view.dataTmp))
         case HitThere(rec, e, logged) =>
           && rem == Some(rec) && FillsIn(Cfg(unread), rec, e)
           && b == c.(view := b.view, failedCalls := c.failedCalls + (if logged then 1 else 0))
           && Installed(a.view, b.view, e.bytes, Metadata(e.outputID, e.size, e.time), logged)
           && r == Hit(Metadata(e.outputID, e.size, e.time), path, false)
    }

    // -------------------------------------------------------------- in terms of the step machine

    /** What the step machine's functions say for this configuration. */
    lemma CfgMeans(failed: bool, v: Disk.View, e: Entry, id: ActionID)
      ensures LocalEntry(Cfg(failed), v) ==
        match LocalCache.ReadBack(v) case None => None case Some(m) => Some(EntryOf(v, m))
      ensures NotReadable(Cfg(failed), v) <==> failed || LocalCache.ReadBack(v).None?
      ensures MetaText(Cfg(failed), e) == MetadataText.Format(Metadata(e.outputID, e.size, e.time))
      ensures id != [] ==> Cfg(failed).path(id) == Paths.Path(local.cacheDir, id)
    {
    }

    /** The path both sides give. */
    lemma PathIs(failed: bool, id: ActionID)
      requires id != []
      ensures Paths.Path(local.cacheDir, id) == PathFor(local.cacheDir, id) == Cfg(failed).path(id)
    {
      Paths.FilePathIs(local.cacheDir, id, Data);
      CfgMeans(failed, NO_FILES, NO_ENTRY, id);
      var p := PathFor(local.cacheDir, id);
      assert p + "" == p && Paths.Path(local.cacheDir, id) + "" == Paths.Path(local.cacheDir, id);
    }

    lemma RemoteStays(id: ActionID)
      ensures RemoteBecomes(backend.objects, id, None)
    {
    }

    /** A PUT that ends before its local half is over. */
    lemma PutEndsEarly(did: PutRun, unread: bool, req: Request, now: int64, later: int64, a: Scene, b: Scene,
                       r: PutResult)
      requires req.actionID != [] && !did.Skipped? && !did.NotCompressed? && !did.Sent?
      requires did.Existing? <==> !unread && LocalCache.ReadBack(a.view).Some?
      requires did.Existing? ==> LocalCache.ReadBack(a.view) == Some(did.meta) && b == a
      requires did.Existing? ==> r == Ok(PathFor(local.cacheDir, req.actionID))
      requires did.TooShort? ==> ShortBody(req) && r == Err(BodyShort)
      requires did.TooShort? ==> b == a.(failedCalls := a.failedCalls + (if unread then 1 else 0))
      requires did.NotWritten? ==> !ShortBody(req) && r == Err(LocalWriteFailed)
      requires did.NotWritten? ==>
        b == a.(failedCalls := a.failedCalls + (if unread then 2 else 1), view := a.view.(dataTmp := b.view.dataTmp))
      ensures PutDid(did, unread, req, now, later, a, b, r)
    {
    }

    /** A PUT whose local half took the files from `a` to `m`, and that ends at `b`. */
    lemma PutEndsLate(did: PutRun, unread: bool, req: Request, now: int64, later: int64, logged: bool, a: Scene,
                      m: Scene, b: Scene, r: PutResult)
      requires req.actionID != [] && (unread || LocalCache.ReadBack(a.view).None?) && !ShortBody(req)
      requires m == a.(view := m.view,
                       failedCalls := a.failedCalls + (if unread then 1 else 0) + (if logged then 1 else 0))
      requires Installed(a.view, m.view, BodyOf(req), Metadata(req.outputID, req.bodySize, now), logged)
      requires match did
        case Skipped(l) =>
          readOnly && l == logged && b == m.(skipped := m.skipped + 1) && r == Ok(PathFor(local.cacheDir, req.actionID))
        case NotCompressed(l) =>
          && !readOnly && l == logged && b == m && r == Err(CompressFailed)
          && compression && req.bodySize > 0 && lz4.compress(BodyOf(req)).None?
        case Sent(l, call) =>
          && !readOnly && l == logged && b == m.(puts := m.puts + [call]) && IsUpload(req, later, call)
          && r == Ok(PathFor(local.cacheDir, req.actionID))
        case _ => false
      ensures PutDid(did, unread, req, now, later, a, b, r)
    {
    }

    lemma GetEnds(did: GetRun, unread: bool, req: Request, rem: Option<Record>, a: Scene, m: Scene, b: Scene,
                  r: GetResult)
      requires req.actionID != [] && (did.HitHere? <==> !unread && LocalCache.ReadBack(a.view).Some?)
      requires m == a.(failedCalls := a.failedCalls + (if unread then 1 else 0),
                       gets := a.gets + [S3.GetCall(S3.BackendKey(req.actionID), !did.NoAnswer?)])
      requires match did
        case HitHere(meta) =>
          && LocalCache.ReadBack(a.view) == Some(meta) && b == a
          && r == Hit(meta, PathFor(local.cacheDir, req.actionID), true)
        case NoAnswer => b == m && r == GetErr(BackendGetFailed)
        case Nothing => rem.None? && b == m && r == Miss
        case Garbled(rec) =>
          && rem == Some(rec) && compression && rec.size > 0 && lz4.decompress(rec.body).None?
          && b == m && r == GetErr(DecompressFailed)
        case NotCached(rec) =>
          && rem == Some(rec) && (exists e :: FillsIn(Cfg(unread), rec, e)) && r == GetErr(LocalWriteFailed)
          && b == m.(failedCalls := m.failedCalls + 1, view := a.view.(dataTmp := b.view.dataTmp))
        case HitThere(rec, e, logged) =>
          && rem == Some(rec) && FillsIn(Cfg(unread), rec, e)
          && b == m.(view := b.view, failedCalls := m.failedCalls + (if logged then 1 else 0))
          && Installed(a.view, b.view, e.bytes, Metadata(e.outputID, e.size, e.time), logged)
          && r == Hit(Metadata(e.outputID, e.size, e.time), PathFor(local.cacheDir, req.actionID), false)
      ensures GetDid(did, unread, req, rem, a, b, r)
    {
    }

    lemma PutStored(unread: bool, req: Request, now: int64, logged: bool, a: Scene, b: Scene, rem: Option<Record>)
        returns (res: Result)
      requires req.cmd == CmdPut && !ShortBody(req) && NotReadable(Cfg(unread), a.view)
      requires Installed(a.view, b.view, BodyOf(req), Metadata(req.outputID, req.bodySize, now), logged)
      ensures Outcome(Cfg(unread), req, a.view, rem, b.view, res) && res.Stored?
      ensures Outcome(Cfg(unread), req, a.view, rem, b.view, Failed(CompressFailed))
    {
      var e := Entry(req.outputID, BodyOf(req), req.bodySize, now);
      CfgMeans(unread, a.view, e, []);
      res := Stored(if Durable(e, logged) then Some(e) else None);
      PutStores(Cfg(unread), req, a.view, rem, b.view, e, logged);
      hide Outcome;
    }

    /** What a PUT did to the files is what LockedSection allows, and its result reports that outcome. */
    lemma PutDidIsOutcome(did: PutRun, unread: bool, req: Request, now: int64, later: int64, a: Scene, b: Scene,
                          r: PutResult, rem: Option<Record>)
        returns (res: Result)
      requires req.cmd == CmdPut && req.actionID != [] && PutDid(did, unread, req, now, later, a, b, r)
      ensures Outcome(Cfg(unread), req, a.view, rem, b.view, res)
      ensures PutResultOf(local.cacheDir, req.actionID, res) == Some(r)
    {
      hide Outcome;
      var cfg := Cfg(unread);
      PathIs(unread, req.actionID);
      CfgMeans(unread, a.view, NO_ENTRY, []);
      match did
      case Existing(m) =>
        res := Stored(Some(EntryOf(a.view, m)));
        FoundLocally(cfg, req, a.view, rem, EntryOf(a.view, m));
      case TooShort =>
        res := Failed(BodyShort);
        Fails(cfg, req, a.view, rem, a.view, BodyShort);
      case NotWritten =>
        res := Failed(LocalWriteFailed);
        Fails(cfg, req, a.view, rem, b.view, LocalWriteFailed);
      case Skipped(logged) => res := PutStored(unread, req, now, logged, a, b, rem);
      case Sent(logged, _) => res := PutStored(unread, req, now, logged, a, b, rem);
      case NotCompressed(logged) =>
        var _ := PutStored(unread, req, now, logged, a, b, rem);
        res := Failed(CompressFailed);
    }

    /** The same for a GET. */
    lemma GetDidIsOutcome(did: GetRun, unread: bool, req: Request, rem: Option<Record>, a: Scene, b: Scene,
                          r: GetResult)
        returns (res: Result)
      requires req.cmd == CmdGet && req.actionID != [] && GetDid(did, unread, req, rem, a, b, r)
      ensures Outcome(Cfg(unread), req, a.view, rem, b.view, res)
      ensures GetResultOf(local.cacheDir, req.actionID, r, res)
    {
      var cfg := Cfg(unread);
      PathIs(unread, req.actionID);
      CfgMeans(unread, a.view, NO_ENTRY, []);
      CodecIs(unread);
      match did
      case HitHere(m) =>
        res := Found(EntryOf(a.view, m), true);
        FoundLocally(cfg, req, a.view, rem, EntryOf(a.view, m));
      case NoAnswer =>
        res := Failed(BackendGetFailed);
        Fails(cfg, req, a.view, rem, a.view, BackendGetFailed);
      case Nothing =>
        res := Absent;
        Misses(cfg, req, a.view, rem);
      case Garbled(_) =>
        res := Failed(DecompressFailed);
        Fails(cfg, req, a.view, rem, a.view, DecompressFailed);
      case NotCached(_) =>
        res := Failed(LocalWriteFailed);
        Fails(cfg, req, a.view, rem, b.view, LocalWriteFailed);
      case HitThere(_, e, logged) =>
        CfgMeans(unread, a.view, e, []);
        res := Found(e, Durable(e, logged));
        GetStores(cfg, req, a.view, rem, b.view, e, logged);
    }

    lemma HitsAre(did: GetRun, unread: bool, req: Request, rem: Option<Record>, a: Scene, b: Scene, r: GetResult)
      requires req.actionID != [] && GetDid(did, unread, req, rem, a, b, r)
      ensures (did.HitHere? <==> r.Hit? && r.fromLocalCache) && (did.HitThere? <==> r.Hit? && !r.fromLocalCache)
    {
    }

    /** What was sent is what is due. */
    lemma SentIsUpload(req: Request, e: Entry, later: int64, call: S3.PutCall)
      requires !ShortBody(req) && StoresBody(req, e) && call.body.Some?
      requires call.key == S3.BackendKey(req.actionID) && call.outputID == req.outputID && call.now == later
      requires Sends(Cfg(false), e, Payload(e.outputID, call.body.value, call.size))
      ensures IsUpload(req, later, call)
    {
    }

    // -------------------------------------------------------------- PUT

    /** handlePut's remote half: compression and the backend's Put. */
    method Upload(actionID: ActionID, e: Entry, now: int64)
        returns (compressed: bool, ghost call: Option<S3.PutCall>)
      requires Fits(e.size, e.bytes)
      modifies backend`objects, backend`puts
      ensures compressed <==> !(compression && e.size > 0 && lz4.compress(e.bytes).None?)
      ensures call.Some? <==> compressed
      ensures backend.puts == old(backend.puts) + if call.Some? then [call.value] else []
      ensures call.Some? ==> call.value.key == S3.BackendKey(actionID) && call.value.now == now
      ensures call.Some? ==> call.value.outputID == e.outputID && call.value.body.Some?
      ensures call.Some? ==> Sends(Cfg(false), e, Payload(e.outputID, call.value.body.value, call.value.size))
      ensures RemoteBecomes(old(backend.objects), actionID, call)
    {
      call := None;
      compressed := true;
      var dataToStore, dataSize := e.bytes, e.size;
      if compression && e.size > 0 {
        var c := lz4.compress(e.bytes);
        if c.None? {
          compressed := false;
          return;
        }
        dataToStore, dataSize := c.value, |c.value|;
      }
      ghost var p := Payload(e.outputID, dataToStore, dataSize);
      assert Sends(Cfg(false), e, p) && Fits(p.size, p.body);
      ghost var before := backend.objects;
      var ok;
      ghost var stored;
      ok, stored := backend.Put(S3.BackendKey(actionID), e.outputID, Some(dataToStore), dataSize, now);
      call := Some(S3.PutCall(S3.BackendKey(actionID), e.outputID, Some(dataToStore), dataSize, now, stored, ok));
      if stored {
        forall id
          ensures S3.RemoteAt(backend.objects, backend.prefix, id) ==
            if id == actionID then Some(RecordOf(p, now)) else S3.RemoteAt(before, backend.prefix, id)
        {
          S3.PutIsRecord(before, backend.prefix, actionID, p, now, id);
        }
      }
    }

    /** The function handlePut runs under the lock; `now` and `later` are its two readings of the clock. */
    method PutLocked(req: Request, now: int64, later: int64)
        returns (r: PutResult, ghost did: PutRun, ghost unread: bool)
      requires req.cmd == CmdPut && req.actionID != [] && Framed(req) && locker.Holds(Hex.Encode(req.actionID))
      modifies this`skippedPuts, local.fs, backend`objects, backend`puts
      ensures PutDid(did, unread, req, now, later, old(Now(req.actionID)), Now(req.actionID), r)
      ensures LocalCache.OnlyFiles(old(local.fs.files), local.fs.files, local.cacheDir, req.actionID)
      ensures RemoteBecomes(old(backend.objects), req.actionID, if did.Sent? then Some(did.call) else None)
    {
      hide RealConfig;
      hide RemoteBecomes;
      hide S3.RemoteAt;
      hide PutDid;
      hide Cfg;
      hide Paths.ViewAt;
      hide LocalCache.ReadBack;
      ghost var a := Now(req.actionID);
      LocalCache.NothingChanged(local.fs.files, local.cacheDir, req.actionID);
      hide LocalCache.OnlyFiles;
      RemoteStays(req.actionID);
      PathIs(false, req.actionID);
      hide PathFor;

      var existing;
      existing, unread := local.Check(req.actionID);
      if existing.Some? {
        r, did := Ok(Paths.Path(local.cacheDir, req.actionID)), Existing(existing.value);
        PutEndsEarly(did, unread, req, now, later, a, Now(req.actionID), r);
        return;
      }

      var bodyData: Bytes := [];
      if req.bodySize > 0 && req.body.Some? {
        if |req.body.value| < req.bodySize {
          r, did := Err(BodyShort), TooShort;
          PutEndsEarly(did, unread, req, now, later, a, Now(req.actionID), r);
          return;
        }
        bodyData := req.body.value[..req.bodySize];
      }
      ghost var e := Entry(req.outputID, bodyData, req.bodySize, now);
      assert StoresBody(req, e) && Fits(e.size, e.bytes) && bodyData == BodyOf(req);
      var diskPath, logged := local.WriteWithMetadata(req.actionID, bodyData, Metadata(req.outputID, req.bodySize,
          now));
      ghost var m := Now(req.actionID);
      if diskPath.None? {
        r, did := Err(LocalWriteFailed), NotWritten;
        PutEndsEarly(did, unread, req, now, later, a, m, r);
        return;
      }

      if readOnly {
        skippedPuts := skippedPuts + 1;
        r, did := Ok(diskPath.value), Skipped(logged);
        PutEndsLate(did, unread, req, now, later, logged, a, m, Now(req.actionID), r);
        return;
      }
      var compressed;
      ghost var call;
      compressed, call := Upload(req.actionID, Entry(req.outputID, bodyData, req.bodySize, now), later);
      if !compressed {
        r, did := Err(CompressFailed), NotCompressed(logged);
      } else {
        r, did := Ok(diskPath.value), Sent(logged, call.value);
        SentIsUpload(req, e, later, call.value);
      }
      hide IsUpload;
      PutEndsLate(did, unread, req, now, later, logged, a, m, Now(req.actionID), r);
    }

    /** handlePut */
    method HandlePut(req: Request, now: int64, later: int64)
        returns (resp: Response, ghost r: PutResult, ghost did: PutRun, ghost unread: bool, ghost locked: bool)
      requires req.cmd == CmdPut && req.actionID != [] && Framed(req)
      modifies this`putCount, this`duplicatePuts, this`skippedPuts, seenActionIDs, locker, local.fs
      modifies backend`objects, backend`puts
      ensures var key := Hex.Encode(req.actionID);
        locker.log == old(locker.log) + if locked then [Acquired(key), Released(key)] else [Refused(key)]
      ensures !locked ==> r == Err(LockFailed) && Now(req.actionID) == old(Now(req.actionID))
      ensures locked ==> PutDid(did, unread, req, now, later, old(Now(req.actionID)), Now(req.actionID), r)
      ensures resp == Response(req.rid, if r.Err? then Some(r.fault) else None, false, [], 0, None,
                               if r.Ok? then Some(r.diskPath) else None)
      ensures LocalCache.OnlyFiles(old(local.fs.files), local.fs.files, local.cacheDir, req.actionID)
      ensures RemoteBecomes(old(backend.objects), req.actionID, if locked && did.Sent? then Some(did.call) else None)
      ensures exists res ::
        Reports(Cfg(unread), req, res, resp)
        && Outcome(Cfg(unread), req, old(View(req.actionID)), old(Remote(req.actionID)), View(req.actionID), res)
      ensures putCount == old(putCount) + 1
      ensures duplicatePuts ==
        old(duplicatePuts) + (if Counters.Count(old(seenActionIDs.ids), Hex.Encode(req.actionID)) > 0 then 1 else 0)
    {
      hide Outcome;
      hide Reports;
      hide PutDid;
      hide PathFor;
      hide RemoteBecomes;
      hide S3.RemoteAt;
      hide Counters.Count;
      hide Hex.Encode;
      hide Paths.ViewAt;
      hide LocalCache.OnlyFiles;
      hide Cfg;
      resp := Response(req.rid, None, false, [], 0, None, None);
      putCount := putCount + 1;
      var key := Hex.Encode(req.actionID);
      var isDuplicate := seenActionIDs.Track(key);
      if isDuplicate {
        duplicatePuts := duplicatePuts + 1;
      }
      ghost var a := Now(req.actionID);
      ghost var rem := Remote(req.actionID);
      hide Now;
      ghost var res;
      var result := Err(LockFailed);
      var acquired := locker.Acquire(key);
      if acquired {
        result, did, unread := PutLocked(req, now, later);
        locker.Release(key);
        res := PutDidIsOutcome(did, unread, req, now, later, a, Now(req.actionID), result, rem);
      } else {
        did, unread, res := TooShort, false, Failed(LockFailed);
        RemoteStays(req.actionID);
        Fails(Cfg(false), req, a.view, rem, a.view, LockFailed);
        LocalCache.NothingChanged(local.fs.files, local.cacheDir, req.actionID);
      }
      r, locked := result, acquired;
      resp := match result
        case Ok(path) => resp.(diskPath := Some(path))
        case Err(f) => resp.(err := Some(f));
      PathIs(unread, req.actionID);
      PutReports(Cfg(unread), local.cacheDir, req, r, res, resp);
    }

    // -------------------------------------------------------------- GET

    /** The function handleGet runs under the lock. */
    method GetLocked(req: Request) returns (r: GetResult, ghost did: GetRun, ghost unread: bool)
      requires req.cmd == CmdGet && req.actionID != [] && locker.Holds(Hex.Encode(req.actionID))
      modifies local.fs, backend`gets
      ensures GetDid(did, unread, req, Remote(req.actionID), old(Now(req.actionID)), Now(req.actionID), r)
      ensures LocalCache.OnlyFiles(old(local.fs.files), local.fs.files, local.cacheDir, req.actionID)
    {
      hide RealConfig;
      hide S3.RecordUnder;
      hide S3.BackendKey;
      hide GetDid;
      hide Cfg;
      hide LocalCache.ReadBack;
      hide Paths.ViewAt;
      ghost var a := Now(req.actionID);
      ghost var rem := Remote(req.actionID);
      LocalCache.NothingChanged(local.fs.files, local.cacheDir, req.actionID);
      hide LocalCache.OnlyFiles;
      PathIs(false, req.actionID);
      hide PathFor;

      var meta;
      meta, unread := local.Check(req.actionID);
      CodecIs(unread);
      ghost var m := Now(req.actionID).(gets := a.gets + [S3.GetCall(S3.BackendKey(req.actionID), true)]);
      if meta.Some? {
        r, did := Hit(meta.value, Paths.Path(local.cacheDir, req.actionID), true), HitHere(meta.value);
        GetEnds(did, unread, req, rem, a, m, Now(req.actionID), r);
        return;
      }
      var rec, ok := backend.Get(S3.BackendKey(req.actionID));
      if !ok {
        r, did := GetErr(BackendGetFailed), NoAnswer;
        GetEnds(did, unread, req, rem, a, Now(req.actionID), Now(req.actionID), r);
        return;
      }
      if rec.None? {
        r, did := Miss, Nothing;
        GetEnds(did, unread, req, rem, a, m, Now(req.actionID), r);
        return;
      }
      var dataToCache, actualSize := rec.value.body, rec.value.size;
      if compression && rec.value.size > 0 {
        var decompressed := lz4.decompress(rec.value.body);
        if decompressed.None? {
          r, did := GetErr(DecompressFailed), Garbled(rec.value);
          GetEnds(did, unread, req, rem, a, m, Now(req.actionID), r);
          return;
        }
        dataToCache, actualSize := decompressed.value, |decompressed.value|;
      }
      var metaForWrite := Metadata(rec.value.outputID, actualSize, rec.value.time);
      ghost var e := Entry(rec.value.outputID, dataToCache, actualSize, rec.value.time);
      assert FillsIn(Cfg(unread), rec.value, e);
      var diskPath, logged := local.WriteWithMetadata(req.actionID, dataToCache, metaForWrite);
      if diskPath.None? {
        r, did := GetErr(LocalWriteFailed), NotCached(rec.value);
      } else {
        r, did := Hit(metaForWrite, diskPath.value, false), HitThere(rec.value, e, logged);
        assert Installed(a.view, View(req.actionID), e.bytes, metaForWrite, logged);
      }
      GetEnds(did, unread, req, rem, a, m, Now(req.actionID), r);
    }

    lemma CodecIs(failed: bool)
      ensures Cfg(failed).compression == compression && Cfg(failed).decompress == lz4.decompress
    {
    }

    /** DoWithLock around GetLocked. */
    method GetWithLock(req: Request)
        returns (r: GetResult, ghost did: GetRun, ghost unread: bool, ghost locked: bool)
      requires req.cmd == CmdGet && req.actionID != []
      modifies local.fs, locker, backend`gets
      ensures var key := Hex.Encode(req.actionID);
        locker.log == old(locker.log) + if locked then [Acquired(key), Released(key)] else [Refused(key)]
      ensures !locked ==> r == GetErr(LockFailed) && Now(req.actionID) == old(Now(req.actionID))
      ensures locked ==>
        GetDid(did, unread, req, Remote(req.actionID), old(Now(req.actionID)), Now(req.actionID), r)
      ensures LocalCache.OnlyFiles(old(local.fs.files), local.fs.files, local.cacheDir, req.actionID)
    {
      hide GetDid;
      var key := Hex.Encode(req.actionID);
      var acquired := locker.Acquire(key);
      locked := acquired;
      if acquired {
        r, did, unread := GetLocked(req);
        locker.Release(key);
      } else {
        r, did, unread := GetErr(LockFailed), NoAnswer, false;
        LocalCache.NothingChanged(local.fs.files, local.cacheDir, req.actionID);
      }
    }

    /** handleGet */
    method HandleGet(req: Request)
        returns (resp: Response, ghost r: GetResult, ghost did: GetRun, ghost unread: bool, ghost locked: bool)
      requires req.cmd == CmdGet && req.actionID != []
      modifies this`getCount, this`duplicateGets, this`hitCount, this`localCacheHits, this`backendCacheHits
      modifies seenActionIDs, locker, local.fs, backend`gets
      ensures var key := Hex.Encode(req.actionID);
        locker.log == old(locker.log) + if locked then [Acquired(key), Released(key)] else [Refused(key)]
      ensures !locked ==> r == GetErr(LockFailed) && Now(req.actionID) == old(Now(req.actionID))
      ensures locked ==>
        GetDid(did, unread, req, Remote(req.actionID), old(Now(req.actionID)), Now(req.actionID), r)
      ensures resp ==
        match r
        case Hit(m, path, _) => Response(req.rid, None, false, m.outputID, m.size, Some(m.time), Some(path))
        case Miss => Response(req.rid, None, true, [], 0, None, None)
        case GetErr(f) => Response(req.rid, Some(f), true, [], 0, None, None)
      ensures LocalCache.OnlyFiles(old(local.fs.files), local.fs.files, local.cacheDir, req.actionID)
      ensures exists res ::
        Reports(Cfg(unread), req, res, resp)
        && Outcome(Cfg(unread), req, old(View(req.actionID)), old(Remote(req.actionID)), View(req.actionID), res)
      ensures getCount == old(getCount) + 1 && hitCount == old(hitCount) + (if r.Hit? then 1 else 0)
      ensures localCacheHits == old(localCacheHits) + (if locked && did.HitHere? then 1 else 0)
      ensures backendCacheHits == old(backendCacheHits) + (if locked && did.HitThere? then 1 else 0)
      ensures duplicateGets ==
        old(duplicateGets) + (if Counters.Count(old(seenActionIDs.ids), Hex.Encode(req.actionID)) > 0 then 1 else 0)
    {
      hide S3.RemoteAt;
      hide Counters.Count;
      hide Hex.Encode;
      hide RealConfig;
      hide Paths.ViewAt;
      hide Outcome;
      hide Cfg;
      hide LocalCache.ReadBack;
      hide Reports;
      hide LocalCache.OnlyFiles;
      hide GetDid;
      ghost var a := Now(req.actionID);
      resp := Response(req.rid, None, false, [], 0, None, None);
      getCount := getCount + 1;
      var isDuplicate := seenActionIDs.Track(Hex.Encode(req.actionID));
      if isDuplicate {
        duplicateGets := duplicateGets + 1;
      }
      ghost var res;
      var result;
      result, did, unread, locked := GetWithLock(req);
      r := result;
      if !locked {
        res := Failed(LockFailed);
        Fails(Cfg(unread), req, a.view, Remote(req.actionID), a.view, LockFailed);
      } else {
        res := GetDidIsOutcome(did, unread, req, Remote(req.actionID), a, Now(req.actionID), r);
        HitsAre(did, unread, req, Remote(req.actionID), a, Now(req.actionID), r);
      }
      assert Outcome(Cfg(unread), req, old(View(req.actionID)), old(Remote(req.actionID)), View(req.actionID), res);
      hide Now;
      hide Remote;
      if result.Hit? {
        hitCount := hitCount + 1;
        if result.fromLocalCache {
          localCacheHits := localCacheHits + 1;
        } else {
          backendCacheHits := backendCacheHits + 1;
        }
        resp := resp.(outputID := result.meta.outputID, size := result.meta.size, time := Some(result.meta.time),
            diskPath := Some(result.diskPath));
      } else if result.Miss? {
        resp := resp.(miss := true);
      } else {
        resp := resp.(err := Some(result.fault), miss := true);
      }
      PathIs(unread, req.actionID);
      GetReports(Cfg(unread), local.cacheDir, req, r, res, resp);
    }
  }

  // ---------------------------------------------------------------- outcomes

  predicate GetResultOf(dir: string, id: ActionID, r: GetResult, res: Result)
    requires id != []
  {
    match res
    case Found(e, _) => r.Hit? && r.meta == Metadata(e.outputID, e.size, e.time) && r.diskPath == Paths.Path(dir, id)
    case Absent => r.Miss?
    case Failed(f) => r == GetErr(f)
    case Stored(_) => false
  }

  function PutResultOf(dir: string, id: ActionID, res: Result): Option<PutResult>
    requires id != []
  {
    match res
    case Stored(_) => Some(Ok(Paths.Path(dir, id)))
    case Failed(f) => Some(Err(f))
    case _ => None
  }

  lemma GetReports(cfg: Config, dir: string, r: Request, g: GetResult, res: Result, a: Response)
    requires r.cmd == CmdGet && r.actionID != [] && cfg.path(r.actionID) == Paths.Path(dir, r.actionID)
    requires GetResultOf(dir, r.actionID, g, res)
    requires a ==
      match g
      case Hit(m, path, _) => Response(r.rid, None, false, m.outputID, m.size, Some(m.time), Some(path))
      case Miss => Response(r.rid, None, true, [], 0, None, None)
      case GetErr(f) => Response(r.rid, Some(f), true, [], 0, None, None)
    ensures Reports(cfg, r, res, a)
  {
    hide Paths.Path;
  }

  lemma PutReports(cfg: Config, dir: string, r: Request, p: PutResult, res: Result, a: Response)
    requires r.cmd == CmdPut && r.actionID != [] && cfg.path(r.actionID) == Paths.Path(dir, r.actionID)
    requires PutResultOf(dir, r.actionID, res) == Some(p)
    requires a == Response(r.rid, if p.Err? then Some(p.fault) else None, false, [], 0, None,
                           if p.Ok? then Some(p.diskPath) else None)
    ensures Reports(cfg, r, res, a)
  {
    hide Paths.Path;
  }

  lemma Misses(cfg: Config, r: Request, v: View, rem: Option<Record>)
    requires r.cmd == CmdGet && NotReadable(cfg, v) && rem.None?
    ensures Outcome(cfg, r, v, rem, v, Absent)
  {
    hide NotReadable;
  }

  lemma FoundLocally(cfg: Config, r: Request, v: View, rem: Option<Record>, e: Entry)
    requires LocalEntry(cfg, v) == Some(e)
    ensures r.cmd == CmdPut ==> Outcome(cfg, r, v, rem, v, Stored(Some(e)))
    ensures r.cmd == CmdGet ==> Outcome(cfg, r, v, rem, v, Found(e, true))
  {
    hide LocalEntry;
  }

  /** The callback gives up, with its files as they were or with a temporary file left over. */
  lemma Fails(cfg: Config, r: Request, v: View, rem: Option<Record>, w: View, f: Fault)
    requires f.LockFailed? || NotReadable(cfg, v)
    requires if f.LocalWriteFailed? then w == v.(dataTmp := w.dataTmp) else w == v
    requires match f
      case BodyShort => r.cmd == CmdPut && ShortBody(r)
      case BackendGetFailed => r.cmd == CmdGet
      case DecompressFailed =>
        r.cmd == CmdGet && rem.Some? && cfg.compression && rem.value.size > 0 && cfg.decompress(rem.value.body).None?
      case LockFailed => true
      case LocalWriteFailed => true
      case CompressFailed => false
      case UnknownCommand => false
    ensures Outcome(cfg, r, v, rem, w, Failed(f))
  {
    hide NotReadable;
  }

  lemma PutStores(cfg: Config, r: Request, v: View, rem: Option<Record>, w: View, e: Entry, logged: bool)
    requires r.cmd == CmdPut && PutWrote(cfg, r, v, w, e, logged) && NotReadable(cfg, v)
    ensures Outcome(cfg, r, v, rem, w, Stored(if Durable(e, logged) then Some(e) else None))
    ensures Outcome(cfg, r, v, rem, w, Failed(CompressFailed))
  {
    hide PutWrote;
    hide NotReadable;
  }

  lemma GetStores(cfg: Config, r: Request, v: View, rem: Option<Record>, w: View, e: Entry, logged: bool)
    requires r.cmd == CmdGet && WroteEntry(cfg, v, w, e, logged) && NotReadable(cfg, v) && Fills(cfg, rem, e)
    ensures Outcome(cfg, r, v, rem, w, Found(e, Durable(e, logged)))
  {
    hide WroteEntry;
    hide NotReadable;
    hide Fills;
  }
}
