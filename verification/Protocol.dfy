/**
  The concurrent cache server as a step machine: any number of processes share one cache directory, one lock
  group and one remote store. A label names the next action and resolves every choice the environment makes
  (which goroutine runs, whether a system call fails, how much of a write reaches the disk, what the clock says),
  so Step is a function and a run is a list of labels.
 */
module Protocol {
  import opened Basics
  import opened Disk

  // ---------------------------------------------------------------- values

  datatype Cmd = CmdGet | CmdPut | CmdClose | CmdOther

  datatype Request = Request(rid: int64, cmd: Cmd, actionID: ActionID, outputID: Bytes, body: Option<Bytes>,
                             bodySize: int64)

  /** Metadata record of a local entry; times are Unix seconds. */
  datatype Metadata = Metadata(outputID: Bytes, size: int64, time: int64)

  /** A cache entry: what the metadata says together with the data file's contents. */
  datatype Entry = Entry(outputID: Bytes, bytes: Bytes, size: int64, time: int64)

  /** An object of the remote store. */
  datatype Record = Record(outputID: Bytes, body: Bytes, size: int64, time: int64)

  /** The arguments of a backend Put. */
  datatype Payload = Payload(outputID: Bytes, body: Bytes, size: int64)

  datatype Fault =
    | LockFailed | BodyShort | LocalWriteFailed | CompressFailed | BackendGetFailed | DecompressFailed | UnknownCommand

  /** Outcome of a handler. `promise` and `durable` record whether readable metadata backs the answer. */
  datatype Result =
    | Failed(fault: Fault)
    | Absent
    | Stored(promise: Option<Entry>)
    | Found(entry: Entry, durable: bool)

  datatype Response = Response(rid: int64, err: Option<Fault>, miss: bool, outputID: Bytes, size: int64,
                               time: Option<int64>, diskPath: Option<string>)

  /** Where PUT sends the data after the local write (server.go:448, async_backend.go, main.go:450). */
  datatype RemoteMode = ReadOnly | Sync | Async(capacity: nat)

  datatype Config = Config(
    path: ActionID -> string,
    format: Metadata -> Bytes,
    parse: Bytes -> Option<Metadata>,
    compress: Bytes -> Option<Blob>,
    decompress: Bytes -> Option<Blob>,
    lockName: ActionID -> string,
    compression: bool,
    mode: RemoteMode,
    lockMayFail: bool,      // fslock: acquisition may time out
    metaMayFail: bool,      // a metadata write may fail
    readMayFail: bool,      // reading a metadata file that exists may fail
    compressMayFail: bool)

  // ---------------------------------------------------------------- local cache entries

  /** readMetadata: the record in the metadata file, if the file exists and parses. */
  function MetaOf(cfg: Config, v: View): Option<Metadata> {
    if v.meta.None? then None else cfg.parse(v.meta.value)
  }

  /** The entry a lookup finds: metadata plus the contents of the data file. */
  function LocalEntry(cfg: Config, v: View): Option<Entry> {
    match MetaOf(cfg, v)
    case None => None
    case Some(m) => Some(Entry(m.outputID, if v.data.Some? then v.data.value else [], m.size, m.time))
  }

  function MetaText(cfg: Config, e: Entry): Bytes {
    cfg.format(Metadata(e.outputID, e.size, e.time))
  }

  /** handlePut reading its body (server.go:420-437); None when the body is too short. */
  function PutEntry(r: Request, now: int64): Option<Entry> {
    if r.bodySize > 0 && r.body.Some? then
      if |r.body.value| < r.bodySize then None
      else Some(Entry(r.outputID, r.body.value[..r.bodySize], r.bodySize, now))
    else
      Some(Entry(r.outputID, [], r.bodySize, now))
  }

  /** handleGet turning a remote object into a local entry (server.go:583-614); None when decompression fails. */
  function FillEntry(cfg: Config, rec: Record): Option<Entry> {
    if cfg.compression && rec.size > 0 then
      match cfg.decompress(rec.body)
      case None => None
      case Some(d) => Some(Entry(rec.outputID, d, |d|, rec.time))
    else
      Some(Entry(rec.outputID, rec.body, rec.size, rec.time))
  }

  /** compressData succeeds on the entry's bytes, if it is called at all. */
  predicate CanUpload(cfg: Config, e: Entry) {
    cfg.compression && e.size > 0 ==> cfg.compress(e.bytes).Some?
  }

  /** What handlePut hands to the backend (server.go:461-481). */
  function PutPayload(cfg: Config, e: Entry): Payload
    requires CanUpload(cfg, e)
  {
    if cfg.compression && e.size > 0 then
      var c := cfg.compress(e.bytes).value;
      Payload(e.outputID, c, |c|)
    else
      Payload(e.outputID, e.bytes, e.size)
  }

  function RecordOf(p: Payload, now: int64): Record {
    Record(p.outputID, p.body, p.size, now)
  }

  function ResponseOf(cfg: Config, r: Request, res: Result): Response {
    match res
    case Failed(f) => Response(r.rid, Some(f), r.cmd == CmdGet, [], 0, None, None)
    case Absent => Response(r.rid, None, true, [], 0, None, None)
    case Stored(_) => Response(r.rid, None, false, [], 0, None, Some(cfg.path(r.actionID)))
    case Found(e, _) => Response(r.rid, None, false, e.outputID, e.size, Some(e.time), Some(cfg.path(r.actionID)))
  }

  // ---------------------------------------------------------------- handler goroutines

  datatype Pc =
    | Locking                 // waiting in DoWithLock
    | Checking                // about to run localCache.check
    | ReadingBody             // PUT: body and timestamp
    | Calling                 // GET: about to call backend.Get
    | Fetching                // GET: backend.Get in flight
    | Creating | Copying(n: nat) | Renaming | Cleaning(ok: bool)                // localCache.write
    | MetaCreating | MetaCopying(n: nat) | MetaRenaming | MetaCleaning          // localCache.writeMetadata
    | Deciding                // PUT: read-only test and compression
    | PutCalling              // PUT: about to call backend.Put
    | Putting                 // synchronous backend.Put in flight
    | Spawning                // semaphore taken, goroutine not started yet
    | Unlocking | Answering | Gone

  /** A PUT past its local half and before its unlock. */
  predicate AtRemote(pc: Pc) {
    pc.Deciding? || pc.PutCalling? || pc.Putting? || pc.Spawning?
  }

  datatype Thread = Thread(req: Request, pc: Pc, entry: Entry, result: Result)

  /** The code that runs inside DoWithLock's callback. */
  predicate InSection(pc: Pc) {
    !pc.Locking? && !pc.Answering? && !pc.Gone?
  }

  /** Lost: the call did its work but reports a failure. */
  datatype Choice = Go | Fail | Upto(n: nat) | Clock(now: int64) | Lost(now: int64)

  datatype Tid = Tid(pid: nat, index: nat)

  /** What the rest of the world can see of the remote write path, in order. */
  datatype Event =
    | Issued(tid: Tid, id: ActionID)      // handlePut called backend.Put
    | Accepted(tid: Tid)                  // the async writer started a goroutine for it
    | InnerPut(tid: Tid, ok: bool)        // the inner backend's Put returned
    | InnerClosed(pid: nat)
    | CloseAnswered(pid: nat)

  /** Everything one handler action does. */
  datatype Effect = Effect(t: Thread, op: FsOp, event: Option<EventKind>, spawn: Option<Payload>, store: Option<Record>)

  datatype EventKind = EvIssued(token: bool) | EvAccepted | EvInnerPut(ok: bool)

  function Move(t: Thread, pc: Pc): Effect {
    Effect(t.(pc := pc), Nop, None, None, None)
  }

  function Write(t: Thread, pc: Pc, op: FsOp): Effect {
    Effect(t.(pc := pc), op, None, None, None)
  }

  /** The callback returns: the deferred unlock comes next. */
  function Return(t: Thread, res: Result): Thread {
    t.(pc := Unlocking, result := res)
  }

  function Ret(t: Thread, res: Result): Effect {
    Effect(Return(t, res), Nop, None, None, None)
  }

  /** writeWithMetadata returned; `ok` says whether readable metadata now backs the entry. */
  function Written(t: Thread, ok: bool): Thread {
    var durable := ok && t.entry.outputID != [];
    if t.req.cmd == CmdPut then
      t.(pc := Deciding, result := Stored(if durable then Some(t.entry) else None))
    else
      Return(t, Found(t.entry, durable))
  }

  /** Taking the lock, localCache.check, and getting hold of the data (server.go:408-437, 537-614). */
  function Lookup(cfg: Config, t: Thread, v: View, rem: Option<Record>, c: Choice): Option<Effect> {
    match t.pc
    case Locking =>
      if c.Go? then Some(Move(t, Checking))
      else if c.Fail? && cfg.lockMayFail then Some(Effect(t.(pc := Answering, result := Failed(LockFailed)), Nop, None,
          None, None))
      else None
    case Checking =>
      if t.req.actionID == [] then None   // actionIDToPath panics: only KillL is left for this process
      else if c.Go? && LocalEntry(cfg, v).Some? then
        var e := LocalEntry(cfg, v).value;
        Some(Ret(t, if t.req.cmd == CmdPut then Stored(Some(e)) else Found(e, true)))
      else if c.Go? || (c.Fail? && cfg.readMayFail) then
        Some(Move(t, if t.req.cmd == CmdPut then ReadingBody else Calling))
      else None
    case ReadingBody =>
      if c.Clock? then
        var e := PutEntry(t.req, c.now);
        Some(if e.None? then Ret(t, Failed(BodyShort)) else Move(t.(entry := e.value), Creating))
      else None
    case Calling =>
      if c.Go? then Some(Move(t, Fetching)) else None
    case Fetching =>
      if c.Fail? then Some(Ret(t, Failed(BackendGetFailed)))
      else if !c.Go? then None
      else if rem.None? then Some(Ret(t, Absent))
      else
        var e := FillEntry(cfg, rem.value);
        Some(if e.None? then Ret(t, Failed(DecompressFailed)) else Move(t.(entry := e.value), Creating))
    case _ => None
  }

  /** localCache.write: temporary file, rename, deferred removal (localcache.go:150-187). */
  function WriteData(t: Thread, c: Choice): Option<Effect> {
    match t.pc
    case Creating =>
      if c.Go? then Some(Write(t, Copying(0), WriteFile(Kind.DataTmp, [])))
      else if c.Fail? then Some(Ret(t, Failed(LocalWriteFailed)))
      else None
    case Copying(n) =>
      if c.Upto? && n < c.n <= |t.entry.bytes| then
        Some(Write(t, Copying(c.n), WriteFile(Kind.DataTmp, t.entry.bytes[..c.n])))
      else if c.Go? && n == |t.entry.bytes| then Some(Move(t, Renaming))
      else if c.Fail? then Some(Move(t, Cleaning(false)))
      else None
    case Renaming =>
      if c.Go? then Some(Write(t, Cleaning(true), RenameFile(Kind.DataTmp, Kind.Data)))
      else if c.Fail? then Some(Move(t, Cleaning(false)))
      else None
    case Cleaning(ok) =>
      if !c.Go? && !c.Fail? then None
      else
        var op := if c.Go? then RemoveFile(Kind.DataTmp) else Nop;
        Some(if ok then Write(t, MetaCreating, op) else Ret(t, Failed(LocalWriteFailed)).(op := op))
    case _ => None
  }

  /** localCache.writeMetadata; a failure is logged and otherwise ignored (localcache.go:80-104, 198-206). */
  function WriteMeta(cfg: Config, t: Thread, c: Choice): Option<Effect> {
    match t.pc
    case MetaCreating =>
      if c.Go? then Some(Write(t, MetaCopying(0), WriteFile(Kind.MetaTmp, [])))
      else if c.Fail? && cfg.metaMayFail then Some(Effect(Written(t, false), Nop, None, None, None))
      else None
    case MetaCopying(n) =>
      if c.Upto? && n < c.n <= |MetaText(cfg, t.entry)| then
        Some(Write(t, MetaCopying(c.n), WriteFile(Kind.MetaTmp, MetaText(cfg, t.entry)[..c.n])))
      else if c.Go? && n == |MetaText(cfg, t.entry)| then Some(Move(t, MetaRenaming))
      else if c.Fail? && cfg.metaMayFail then Some(Effect(Written(t, false), Nop, None, None, None))
      else None
    case MetaRenaming =>
      if c.Go? then Some(Effect(Written(t, true), RenameFile(Kind.MetaTmp, Kind.Meta), None, None, None))
      else if c.Fail? && cfg.metaMayFail then Some(Move(t, MetaCleaning))
      else None
    case MetaCleaning =>
      if c.Go? then Some(Effect(Written(t, false), RemoveFile(Kind.MetaTmp), None, None, None))
      else if c.Fail? then Some(Effect(Written(t, false), Nop, None, None, None))
      else None
    case _ => None
  }

  /** The remote half of a PUT, the unlock and the answer (server.go:447-505, async_backend.go:43-88). */
  function Finish(cfg: Config, t: Thread, full: bool, c: Choice): Option<Effect> {
    match t.pc
    case Deciding =>
      if c.Go? then
        Some(if cfg.mode.ReadOnly? then Move(t, Unlocking)
             else if CanUpload(cfg, t.entry) then Move(t, PutCalling)
             else Ret(t, Failed(CompressFailed)))
      else if c.Fail? && cfg.compressMayFail && !cfg.mode.ReadOnly? && cfg.compression && t.entry.size > 0 then
        Some(Ret(t, Failed(CompressFailed)))
      else None
    case PutCalling =>
      if c.Go? then
        var next := if cfg.mode.Sync? then Putting else if full then Unlocking else Spawning;
        Some(Move(t, next).(event := Some(EvIssued(next.Spawning?))))
      else None
    case Putting =>
      if (c.Clock? || c.Lost?) && CanUpload(cfg, t.entry) then
        Some(Move(t, Unlocking).(event := Some(EvInnerPut(c.Clock?)), store := Some(RecordOf(PutPayload(cfg, t.entry),
            c.now))))
      else if c.Fail? then Some(Move(t, Unlocking).(event := Some(EvInnerPut(false))))
      else None
    case Spawning =>
      if c.Go? && CanUpload(cfg, t.entry) then
        Some(Move(t, Unlocking).(event := Some(EvAccepted), spawn := Some(PutPayload(cfg, t.entry))))
      else None
    case Unlocking =>
      if c.Go? then Some(Move(t, Answering)) else None
    case Answering =>
      if c.Go? then Some(Move(t, Gone)) else None
    case _ => None
  }

  predicate LooksUp(pc: Pc) {
    pc.Locking? || pc.Checking? || pc.ReadingBody? || pc.Calling? || pc.Fetching?
  }

  predicate WritesData(pc: Pc) {
    pc.Creating? || pc.Copying? || pc.Renaming? || pc.Cleaning?
  }

  predicate WritesMeta(pc: Pc) {
    pc.MetaCreating? || pc.MetaCopying? || pc.MetaRenaming? || pc.MetaCleaning?
  }

  /**
    One action of a handler. `v` is the disk as seen for the handler's action ID, `rem` the remote object under
    it, `full` whether the async writer's semaphore has no free slot. None means the action is not possible.
   */
  function Advance(cfg: Config, t: Thread, v: View, rem: Option<Record>, full: bool, c: Choice): Option<Effect> {
    if LooksUp(t.pc) then Lookup(cfg, t, v, rem, c)
    else if WritesData(t.pc) then WriteData(t, c)
    else if WritesMeta(t.pc) then WriteMeta(cfg, t, c)
    else Finish(cfg, t, full, c)
  }

  // ---------------------------------------------------------------- whole system

  /** A goroutine of the async writer; its two deferred calls run after Counting. */
  datatype JobPc = Running | Counting(ok: bool) | Releasing | Finishing

  datatype Job = Job(id: ActionID, payload: Payload, pc: JobPc)

  datatype Phase =
    | Booting | Reading
    | Draining                // close read: waiting for the handlers
    | Closing                 // inside backend.Close
    | Replying                // about to answer the close request
    | Exiting                 // end of input: waiting for the handlers
    | Done | Dead

  /** A response on stdout, the request it answers, and the entry it promises (bookkeeping only). */
  datatype Answer = Answer(index: nat, response: Response, promise: Option<Entry>)

  datatype Proc = Proc(input: seq<Request>, next: nat, phase: Phase, greeted: bool, out: seq<Answer>,
                       tokens: nat, wg: nat, started: nat, succeeded: nat, failed: nat)

  datatype State = State(files: Files, remote: map<ActionID, Record>, locks: map<string, Tid>,
                         threads: map<Tid, Thread>, jobs: map<Tid, Job>, procs: map<nat, Proc>, log: seq<Event>)

  datatype Label = ThreadL(tid: Tid, c: Choice) | JobL(tid: Tid, c: Choice) | ProcL(pid: nat) | KillL(pid: nat)

  function PromiseOf(res: Result): Option<Entry> {
    match res
    case Stored(p) => p
    case Found(e, true) => Some(e)
    case _ => None
  }

  function EventOf(k: EventKind, tid: Tid, id: ActionID): Event {
    match k
    case EvIssued(_) => Issued(tid, id)
    case EvAccepted => Accepted(tid)
    case EvInnerPut(ok) => InnerPut(tid, ok)
  }

  predicate Full(cfg: Config, p: Proc) {
    cfg.mode.Async? && p.tokens >= cfg.mode.capacity
  }

  /** The lock table after a handler moves from `t` to `u`. */
  function Relock(cfg: Config, locks: map<string, Tid>, tid: Tid, t: Thread, u: Thread): map<string, Tid> {
    var n := cfg.lockName(t.req.actionID);
    if !InSection(t.pc) && InSection(u.pc) then locks[n := tid]
    else if InSection(t.pc) && !InSection(u.pc) then locks - {n}
    else locks
  }

  function Commit(cfg: Config, s: State, tid: Tid, e: Effect): State
    requires tid in s.threads && tid.pid in s.procs
  {
    var t := s.threads[tid];
    var id := t.req.actionID;
    var p := s.procs[tid.pid];
    s.(files := if e.op.Nop? then s.files else s.files[id := ApplyView(At(s.files, id), e.op)],
       threads := if e.t.pc.Gone? then s.threads - {tid} else s.threads[tid := e.t],
       locks := Relock(cfg, s.locks, tid, t, e.t),
       remote := if e.store.Some? then s.remote[id := e.store.value] else s.remote,
       jobs := if e.spawn.Some? then s.jobs[tid := Job(id, e.spawn.value, Running)] else s.jobs,
       log := if e.event.Some? then s.log + [EventOf(e.event.value, tid, id)] else s.log,
       procs := s.procs[tid.pid := AfterMove(cfg, p, tid, t, e)])
  }

  /** The process of a handler that moves from `t` by `e`. */
  function AfterMove(cfg: Config, p: Proc, tid: Tid, t: Thread, e: Effect): Proc {
    p.(out := if e.t.pc.Gone? then p.out + [Answer(tid.index, ResponseOf(cfg, t.req, t.result),
        PromiseOf(t.result))] else p.out,
       tokens := if e.event == Some(EvIssued(true)) then p.tokens + 1 else p.tokens,
       wg := if e.spawn.Some? then p.wg + 1 else p.wg,
       started := if e.spawn.Some? then p.started + 1 else p.started)
  }

  function EffectOf(cfg: Config, s: State, tid: Tid, c: Choice): Option<Effect>
    requires tid in s.threads && tid.pid in s.procs
  {
    var t := s.threads[tid];
    var id := t.req.actionID;
    Advance(cfg, t, At(s.files, id), Get(s.remote, id), Full(cfg, s.procs[tid.pid]), c)
  }

  function StepThread(cfg: Config, s: State, tid: Tid, c: Choice): Option<State> {
    if tid !in s.threads || tid.pid !in s.procs then None
    else
      match EffectOf(cfg, s, tid, c)
      case None => None
      case Some(e) =>
        var t := s.threads[tid];
        if !InSection(t.pc) && InSection(e.t.pc) && cfg.lockName(t.req.actionID) in s.locks then None
        else Some(Commit(cfg, s, tid, e))
  }

  /** Everything one action of an async goroutine does; `pc` is None when it ends. */
  datatype JobEffect = JobEffect(pc: Option<JobPc>, p: Proc, store: Option<Record>, event: Option<Event>)

  /** async_backend.go:61-85. The deferred calls run in reverse order: semaphore first, then the wait group. */
  function AdvanceJob(j: Job, p: Proc, tid: Tid, c: Choice): Option<JobEffect> {
    match j.pc
    case Running =>
      if c.Clock? || c.Lost? then
        Some(JobEffect(Some(Counting(c.Clock?)), p, Some(RecordOf(j.payload, c.now)), Some(InnerPut(tid, c.Clock?))))
      else if c.Fail? then Some(JobEffect(Some(Counting(false)), p, None, Some(InnerPut(tid, false))))
      else None
    case Counting(ok) =>
      var q := if ok then p.(succeeded := p.succeeded + 1) else p.(failed := p.failed + 1);
      if c.Go? then Some(JobEffect(Some(Releasing), q, None, None)) else None
    case Releasing =>
      if c.Go? && p.tokens > 0 then Some(JobEffect(Some(Finishing), p.(tokens := p.tokens - 1), None, None)) else None
    case Finishing =>
      if c.Go? && p.wg > 0 then Some(JobEffect(None, p.(wg := p.wg - 1), None, None)) else None
  }

  function CommitJob(s: State, tid: Tid, e: JobEffect): State
    requires tid in s.jobs && tid.pid in s.procs
  {
    s.(remote := if e.store.Some? then s.remote[s.jobs[tid].id := e.store.value] else s.remote,
       jobs := if e.pc.None? then s.jobs - {tid} else s.jobs[tid := s.jobs[tid].(pc := e.pc.value)],
       procs := s.procs[tid.pid := e.p],
       log := if e.event.Some? then s.log + [e.event.value] else s.log)
  }

  function StepJob(s: State, tid: Tid, c: Choice): Option<State> {
    if tid !in s.jobs || tid.pid !in s.procs then None
    else
      match AdvanceJob(s.jobs[tid], s.procs[tid.pid], tid, c)
      case None => None
      case Some(e) => Some(CommitJob(s, tid, e))
  }

  const NO_ENTRY := Entry([], [], 0, 0)

  function NewThread(r: Request): Thread {
    if r.cmd == CmdOther then Thread(r, Answering, NO_ENTRY, Failed(UnknownCommand))
    else Thread(r, Locking, NO_ENTRY, Absent)
  }

  predicate Idle(threads: map<Tid, Thread>, pid: nat) {
    forall tid :: tid in threads ==> tid.pid != pid
  }

  function DropThreads(threads: map<Tid, Thread>, pid: nat): map<Tid, Thread> {
    map tid | tid in threads && tid.pid != pid :: threads[tid]
  }

  function DropJobs(jobs: map<Tid, Job>, pid: nat): map<Tid, Job> {
    map tid | tid in jobs && tid.pid != pid :: jobs[tid]
  }

  function DropLocks(locks: map<string, Tid>, pid: nat): map<string, Tid> {
    map n | n in locks && locks[n].pid != pid :: locks[n]
  }

  /** Everything one action of the goroutine executing Run does. */
  datatype ProcEffect = ProcEffect(p: Proc, spawn: Option<Thread>, event: Option<Event>)

  /** server.go:161-251 and 371; `idle` says that the wait group of the handlers is at zero. */
  function AdvanceProc(p: Proc, pid: nat, idle: bool): Option<ProcEffect> {
    match p.phase
    case Booting => Some(ProcEffect(p.(phase := Reading, greeted := true), None, None))
    case Reading =>
      if p.next >= |p.input| then Some(ProcEffect(p.(phase := Exiting), None, None))
      else
        var r := p.input[p.next];
        var q := p.(next := p.next + 1);
        if r.cmd == CmdClose then Some(ProcEffect(q.(phase := Draining), None, None))
        else Some(ProcEffect(q, Some(NewThread(r)), None))
    case Draining => if idle then Some(ProcEffect(p.(phase := Closing), None, None)) else None
    case Closing => if p.wg == 0 then Some(ProcEffect(p.(phase := Replying), None, Some(InnerClosed(pid)))) else None
    case Replying =>
      if 0 < p.next <= |p.input| then
        var a := Answer(p.next - 1, Response(p.input[p.next - 1].rid, None, false, [], 0, None, None), None);
        Some(ProcEffect(p.(phase := Done, out := p.out + [a]), None, Some(CloseAnswered(pid))))
      else None
    case Exiting => if idle then Some(ProcEffect(p.(phase := Done), None, None)) else None
    case Done => None
    case Dead => None
  }

  /** A process that is done exits, and its goroutines with it. */
  function CommitProc(s: State, pid: nat, e: ProcEffect): State
    requires pid in s.procs
  {
    s.(threads := if e.spawn.Some? then s.threads[Tid(pid, s.procs[pid].next) := e.spawn.value] else s.threads,
       jobs := if e.p.phase.Done? then DropJobs(s.jobs, pid) else s.jobs,
       procs := s.procs[pid := e.p],
       log := if e.event.Some? then s.log + [e.event.value] else s.log)
  }

  function StepProc(s: State, pid: nat): Option<State> {
    if pid !in s.procs then None
    else
      match AdvanceProc(s.procs[pid], pid, Idle(s.threads, pid))
      case None => None
      case Some(e) => Some(CommitProc(s, pid, e))
  }

  /** The process is killed: its goroutines and locks vanish, the files stay as they are. */
  function StepKill(s: State, pid: nat): Option<State> {
    if pid !in s.procs || s.procs[pid].phase.Done? || s.procs[pid].phase.Dead? then None
    else
      Some(s.(threads := DropThreads(s.threads, pid), jobs := DropJobs(s.jobs, pid), locks := DropLocks(s.locks, pid),
              procs := s.procs[pid := s.procs[pid].(phase := Dead)]))
  }

  function Step(cfg: Config, s: State, l: Label): Option<State> {
    match l
    case ThreadL(tid, c) => StepThread(cfg, s, tid, c)
    case JobL(tid, c) => StepJob(s, tid, c)
    case ProcL(pid) => StepProc(s, pid)
    case KillL(pid) => StepKill(s, pid)
  }

  function Run(cfg: Config, s: State, ls: seq<Label>): Option<State>
    decreases |ls|
  {
    if ls == [] then Some(s)
    else
      match Step(cfg, s, ls[0])
      case None => None
      case Some(u) => Run(cfg, u, ls[1..])
  }

  // ---------------------------------------------------------------- assumptions and initial states

  /**
    Metadata files read back, unless they name no output: Deployment.RealConfigIsSound shows it of the program's own.
   */
  ghost predicate Sound(cfg: Config) {
    forall m: Metadata :: cfg.parse(cfg.format(m)) == if m.outputID == [] then None else Some(m)
  }

  /** What compression succeeds on comes back, and is not made empty. */
  ghost predicate Lossless(cfg: Config) {
    forall b: Bytes :: cfg.compress(b).Some? ==>
      cfg.decompress(cfg.compress(b).value) == Some(b) && (b != [] ==> cfg.compress(b).value != [])
  }

  /** A size agrees with the bytes it describes; a negative size goes with no bytes at all. */
  predicate Fits(size: int64, bytes: Bytes) {
    if size >= 0 then |bytes| == size else bytes == []
  }

  /** readRequest delivers a body with every PUT of positive size. */
  predicate Framed(r: Request) {
    r.cmd == CmdPut && r.bodySize > 0 ==> r.body.Some?
  }

  /** Readable metadata comes with a complete data file of the size it states. */
  predicate Consistent(cfg: Config, v: View) {
    MetaOf(cfg, v).Some? ==> v.data.Some? && Fits(MetaOf(cfg, v).value.size, v.data.value)
  }

  /** Readable metadata comes with a data file. */
  predicate Whole(cfg: Config, v: View) {
    MetaOf(cfg, v).Some? ==> v.data.Some?
  }

  predicate FreshProc(p: Proc) {
    && (forall i :: 0 <= i < |p.input| ==> Framed(p.input[i]))
    && p == Proc(p.input, 0, Booting, false, [], 0, 0, 0, 0, 0)
  }

  /** Processes that have not started yet, on whatever an earlier life of the directory left behind. */
  ghost predicate Init(cfg: Config, s: State) {
    && (forall id :: Whole(cfg, At(s.files, id)))
    && (forall pid :: pid in s.procs ==> FreshProc(s.procs[pid]))
    && s.locks == map[] && s.threads == map[] && s.jobs == map[] && s.log == []
  }

  ghost predicate Reachable(cfg: Config, s: State) {
    exists s0, ls :: Init(cfg, s0) && Run(cfg, s0, ls) == Some(s)
  }

  // ---------------------------------------------------------------- what the values mean, apart from the machine

  /** A PUT promises more bytes than its body has. */
  predicate ShortBody(r: Request) {
    r.bodySize > 0 && r.body.Some? && |r.body.value| < r.bodySize
  }

  /** `e` has the output ID and the size that `r` states, and as many of the first bytes of its body. */
  predicate StoresBody(r: Request, e: Entry) {
    && e.outputID == r.outputID && e.size == r.bodySize
    && if r.bodySize > 0 && r.body.Some? then r.bodySize <= |r.body.value| && e.bytes == r.body.value[..r.bodySize]
       else e.bytes == []
  }

  /** `e` is `rec` decompressed where that is asked for, and otherwise unchanged. */
  predicate FillsIn(cfg: Config, rec: Record, e: Entry) {
    && e.outputID == rec.outputID && e.time == rec.time
    && if cfg.compression && rec.size > 0 then cfg.decompress(rec.body) == Some(e.bytes) && e.size == |e.bytes|
       else e.bytes == rec.body && e.size == rec.size
  }

  /** `p` is `e` compressed where that is asked for, and otherwise unchanged. */
  predicate Sends(cfg: Config, e: Entry, p: Payload) {
    && p.outputID == e.outputID
    && if cfg.compression && e.size > 0 then cfg.compress(e.bytes) == Some(p.body) && p.size == |p.body|
       else p.body == e.bytes && p.size == e.size
  }

  /** What was sent to the remote store for it to hold `rec`. */
  function Sent(rec: Record): Payload {
    Payload(rec.outputID, rec.body, rec.size)
  }

  /** The response `a` to `r` reports the outcome `res` and nothing else. */
  predicate Reports(cfg: Config, r: Request, res: Result, a: Response) {
    && a.rid == r.rid
    && a.err == (if res.Failed? then Some(res.fault) else None)
    && (a.miss <==> res.Absent? || (res.Failed? && r.cmd == CmdGet))
    && a.diskPath == (if res.Stored? || res.Found? then Some(cfg.path(r.actionID)) else None)
    && if res.Found? then a.outputID == res.entry.outputID && a.size == res.entry.size && a.time == Some(res.entry.time)
       else a.outputID == [] && a.size == 0 && a.time == None
  }

  /** The machine's reading of a body is the one stated: nothing exactly when the body is short, else what is stored. */
  lemma PutEntryStores(r: Request, now: int64)
    ensures PutEntry(r, now).None? <==> ShortBody(r)
    ensures forall e :: PutEntry(r, now) == Some(e) <==> StoresBody(r, e) && e.time == now
  {
  }

  lemma FillEntryFills(cfg: Config, rec: Record)
    ensures FillEntry(cfg, rec).None? <==> cfg.compression && rec.size > 0 && cfg.decompress(rec.body).None?
    ensures forall e :: FillEntry(cfg, rec) == Some(e) <==> FillsIn(cfg, rec, e)
  {
  }

  lemma PayloadIsSent(cfg: Config, e: Entry)
    ensures CanUpload(cfg, e) <==> exists p :: Sends(cfg, e, p)
    ensures forall p :: Sends(cfg, e, p) <==> CanUpload(cfg, e) && p == PutPayload(cfg, e)
  {
    if CanUpload(cfg, e) {
      assert Sends(cfg, e, PutPayload(cfg, e));
    }
  }

  // ---------------------------------------------------------------- where an entry may come from

  /** The PUT `r` stores `e` under `id`. */
  predicate PutsEntry(r: Request, id: ActionID, e: Entry) {
    r.cmd == CmdPut && r.actionID == id && StoresBody(r, e)
  }

  predicate PutOf(procs: map<nat, Proc>, id: ActionID, e: Entry) {
    exists pid, i :: pid in procs && 0 <= i < |procs[pid].input| && PutsEntry(procs[pid].input[i], id, e)
  }

  /** What a PUT of `id` hands to the backend. */
  ghost predicate PayloadOf(cfg: Config, procs: map<nat, Proc>, id: ActionID, p: Payload) {
    exists e :: PutOf(procs, id, e) && Sends(cfg, e, p)
  }

  /** A remote object that was there at the start, or that a PUT uploaded. */
  ghost predicate RemoteFrom(cfg: Config, s0: State, id: ActionID, rec: Record) {
    || Get(s0.remote, id) == Some(rec)
    || PayloadOf(cfg, s0.procs, id, Sent(rec))
  }

  ghost predicate FillOf(cfg: Config, s0: State, id: ActionID, e: Entry) {
    exists rec :: RemoteFrom(cfg, s0, id, rec) && FillsIn(cfg, rec, e)
  }

  /**
    All of `e` was written together: it is the entry `id` started with, or the whole of what one PUT of `id` stores,
    or the whole of what one remote object under `id` fills in.
   */
  ghost predicate FromOneWrite(cfg: Config, s0: State, id: ActionID, e: Entry) {
    || LocalEntry(cfg, At(s0.files, id)) == Some(e)
    || (id != [] && e.outputID != [] && (PutOf(s0.procs, id, e) || FillOf(cfg, s0, id, e)))
  }

  /**
    No torn entry: readable metadata comes with a data file, complete at the size the metadata states, and data,
    size, output ID and time are from one and the same write.
   */
  ghost predicate CrashSafe(cfg: Config, s0: State, s: State) {
    FilesFit(cfg, s.files) && EntriesWhole(cfg, s0, s.files)
  }

  ghost predicate EntriesWhole(cfg: Config, s0: State, files: Files) {
    forall id :: LocalEntry(cfg, At(files, id)).Some? ==> FromOneWrite(cfg, s0, id, LocalEntry(cfg, At(files,
        id)).value)
  }

  ghost predicate FilesFit(cfg: Config, files: Files) {
    forall id :: Consistent(cfg, At(files, id))
  }

  /** The remote objects a GET can turn into readable entries have the size they state. */
  ghost predicate FillsFit(cfg: Config, remote: map<ActionID, Record>) {
    forall id, e: Entry :: id in remote && id != [] && e.outputID != [] && FillsIn(cfg, remote[id], e) ==>
      Fits(e.size, e.bytes)
  }
}
