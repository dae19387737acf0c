/**
  What the server is for, without files, locks or interleavings: a first-write-wins map of local entries over a
  remote map. Every operation touches one action ID and takes effect in single atomic moves.
 */
module Spec {
  import opened Basics
  import P = Protocol

  /** Where an operation stands. */
  datatype Op =
    | Waiting(req: P.Request)
    | Prepared(req: P.Request, entry: P.Entry)                      // holds the entry it wants to install
    | Written(req: P.Request, entry: P.Entry, result: P.Result)     // PUT, local half over
    | Returned(req: P.Request, result: P.Result)
    | Ended

  datatype Upload = Upload(id: ActionID, payload: P.Payload)

  /** `out` is what each process has answered, in order. */
  datatype State = State(local: imap<ActionID, P.Entry>, remote: map<ActionID, P.Record>,
                         ops: map<P.Tid, Op>, uploads: map<P.Tid, Upload>, out: map<nat, seq<P.Response>>)

  /**
    One atomic move of an operation: its new standing, the local entry afterwards, what goes to the remote store, and
    the answer that is sent.
   */
  datatype Move = Move(op: Op, local: Option<P.Entry>, store: Option<P.Record>, upload: Option<P.Payload>,
                       answer: Option<P.Response>)

  /** How the local half of an operation ends when `durable` says whether the entry can be looked up. */
  function AfterWrite(req: P.Request, e: P.Entry, durable: bool): Op {
    if req.cmd == P.CmdPut then Written(req, e, P.Stored(if durable then Some(e) else None))
    else Returned(req, P.Found(e, durable))
  }

  predicate MayFail(cfg: P.Config, op: Op, rem: Option<P.Record>, f: P.Fault) {
    match f
    case LockFailed => cfg.lockMayFail && op.Waiting?
    case BodyShort => op.Waiting? && op.req.cmd == P.CmdPut && P.ShortBody(op.req)
    case BackendGetFailed => op.Waiting? && op.req.cmd != P.CmdPut
    case DecompressFailed =>
      op.Waiting? && op.req.cmd != P.CmdPut && rem.Some? && cfg.compression && rem.value.size > 0
      && cfg.decompress(rem.value.body).None?
    case LocalWriteFailed => op.Prepared?
    case CompressFailed =>
      op.Written? && !cfg.mode.ReadOnly? && cfg.compression && op.entry.size > 0
      && (cfg.compressMayFail || cfg.compress(op.entry.bytes).None?)
    case UnknownCommand => false
  }

  /** An operation moves by `m` while its action ID has local entry `loc` and remote object `rem`. */
  predicate KeyStep(cfg: P.Config, op: Op, loc: Option<P.Entry>, rem: Option<P.Record>, m: Move) {
    || (op.Waiting? && loc.Some?            // found locally; a PUT ignores its own body and output ID
        && m == Move(Returned(op.req, if op.req.cmd == P.CmdPut then P.Stored(loc) else P.Found(loc.value, true)), loc,
            None, None, None))
    || (op.Waiting? && loc.None? && op.req.cmd != P.CmdPut && rem.None?
        && m == Move(Returned(op.req, P.Absent), loc, None, None, None))
    || (op.Waiting? && loc.None? && m.op.Prepared?
        && m == Move(Prepared(op.req, m.op.entry), loc, None, None, None)
        && (if op.req.cmd == P.CmdPut then P.StoresBody(op.req, m.op.entry)
            else rem.Some? && P.FillsIn(cfg, rem.value, m.op.entry)))
    || (op.Prepared? && loc.None? && op.entry.outputID != []          // first write wins
        && m == Move(AfterWrite(op.req, op.entry, true), Some(op.entry), None, None, None))
    || (op.Prepared? && (cfg.metaMayFail || op.entry.outputID == [])  // written, but cannot be looked up
        && m == Move(AfterWrite(op.req, op.entry, false), loc, None, None, None))
    || (op.Written? && m.op == Returned(op.req, op.result) && m.local == loc && m.answer.None?
        && (m.store.Some? ==> cfg.mode.Sync? && P.Sends(cfg, op.entry, P.Sent(m.store.value)))
        && (m.upload.Some? ==> cfg.mode.Async? && P.Sends(cfg, op.entry, m.upload.value)))
    || (m.op.Returned? && m.op.result.Failed? && MayFail(cfg, op, rem, m.op.result.fault)
        && m == Move(Returned(op.req, m.op.result), loc, None, None, None))
    || (op.Returned?                        // the answer reports the outcome
        && m == Move(Ended, loc, None, None, m.answer)
        && m.answer.Some? && P.Reports(cfg, op.req, op.result, m.answer.value))
  }

  ghost function Local(a: State, id: ActionID): Option<P.Entry> {
    if id in a.local then Some(a.local[id]) else None
  }

  function Answered(out: map<nat, seq<P.Response>>, pid: nat, r: P.Response): map<nat, seq<P.Response>> {
    out[pid := (if pid in out then out[pid] else []) + [r]]
  }

  ghost function Apply(a: State, tid: P.Tid, id: ActionID, m: Move): State {
    State(if m.local.Some? then a.local[id := m.local.value] else a.local,
          if m.store.Some? then a.remote[id := m.store.value] else a.remote,
          if m.op.Ended? then a.ops - {tid} else a.ops[tid := m.op],
          if m.upload.Some? then a.uploads[tid := Upload(id, m.upload.value)] else a.uploads,
          if m.answer.Some? then Answered(a.out, tid.pid, m.answer.value) else a.out)
  }

  ghost predicate OpNext(cfg: P.Config, a: State, b: State, tid: P.Tid) {
    tid in a.ops && !a.ops[tid].Ended?
    && exists m :: KeyStep(cfg, a.ops[tid], Local(a, a.ops[tid].req.actionID), Get(a.remote, a.ops[tid].req.actionID),
        m)
                   && b == Apply(a, tid, a.ops[tid].req.actionID, m)
  }

  /** An accepted upload reaches the remote store, or fails. */
  ghost predicate UploadNext(a: State, b: State, tid: P.Tid) {
    tid in a.uploads
    && (|| b == a.(uploads := a.uploads - {tid})
        || exists rec ::
             P.Sent(rec) == a.uploads[tid].payload
             && b == a.(uploads := a.uploads - {tid}, remote := a.remote[a.uploads[tid].id := rec]))
  }

  ghost predicate BeginNext(a: State, b: State, tid: P.Tid) {
    && tid !in a.ops && tid in b.ops && b == a.(ops := a.ops[tid := b.ops[tid]])
    && (b.ops[tid].Waiting? || (b.ops[tid].Returned? && b.ops[tid].result == P.Failed(P.UnknownCommand)))
  }

  /** A process goes away with its operations and uploads; the local entries stay. */
  ghost predicate LeaveNext(a: State, b: State, pid: nat) {
    && b.local == a.local && b.remote == a.remote && b.out == a.out
    && (b.ops == a.ops || b.ops == map tid | tid in a.ops && tid.pid != pid :: a.ops[tid])
    && b.uploads == map tid | tid in a.uploads && tid.pid != pid :: a.uploads[tid]
  }

  function CloseResponse(rid: int64): P.Response {
    P.Response(rid, None, false, [], 0, None, None)
  }

  /** A process whose operations have all been answered answers its close request, and goes away. */
  ghost predicate CloseNext(a: State, b: State, pid: nat) {
    && (forall tid :: tid in a.ops ==> tid.pid != pid)
    && exists rid :: b == a.(uploads := (map tid | tid in a.uploads && tid.pid != pid :: a.uploads[tid]),
                             out := Answered(a.out, pid, CloseResponse(rid)))
  }

  ghost predicate Next(cfg: P.Config, a: State, b: State) {
    || (exists tid :: OpNext(cfg, a, b, tid))
    || (exists tid :: UploadNext(a, b, tid))
    || (exists tid :: BeginNext(a, b, tid))
    || (exists pid :: LeaveNext(a, b, pid))
    || (exists pid :: CloseNext(a, b, pid))
  }

  /** The entries of `a` are all in `b`, unchanged. */
  ghost predicate Extends(a: State, b: State) {
    forall id :: id in a.local ==> id in b.local && b.local[id] == a.local[id]
  }

  /** Answers are never taken back. */
  ghost predicate OnlyAnswers(a: State, b: State) {
    forall pid :: pid in a.out ==> pid in b.out && a.out[pid] <= b.out[pid]
  }

  lemma AnswersStand(cfg: P.Config, a: State, b: State)
    requires Next(cfg, a, b)
    ensures OnlyAnswers(a, b)
  {
    hide KeyStep;
  }

  lemma KeyStepKeeps(cfg: P.Config, op: Op, loc: Option<P.Entry>, rem: Option<P.Record>, m: Move)
    requires KeyStep(cfg, op, loc, rem, m) && loc.Some?
    ensures m.local == loc
  {
  }

  lemma OpNextKeeps(cfg: P.Config, a: State, b: State, tid: P.Tid)
    requires OpNext(cfg, a, b, tid)
    ensures Extends(a, b)
  {
    var op := a.ops[tid];
    var loc, rem := Local(a, op.req.actionID), Get(a.remote, op.req.actionID);
    var m :| KeyStep(cfg, op, loc, rem, m) && b == Apply(a, tid, op.req.actionID, m);
    if loc.Some? {
      KeyStepKeeps(cfg, op, loc, rem, m);
    }
    hide KeyStep;
  }

  /** No move changes or removes a local entry. */
  lemma FirstWriteWins(cfg: P.Config, a: State, b: State)
    requires Next(cfg, a, b)
    ensures Extends(a, b)
  {
    if tid :| OpNext(cfg, a, b, tid) {
      OpNextKeeps(cfg, a, b, tid);
    } else {
      hide OpNext;
      assert b.local == a.local;
    }
  }
}
