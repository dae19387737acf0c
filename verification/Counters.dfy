/**
  The statistics counters (server.go:398-405, 527-534, 645-653, 755-765): handlers update them one at a time under
  every interleaving, and the totals that Run prints still add up.
 */
module Counters {
  import opened Basics
  import opened Sums

  type Id = nat

  datatype Pc =
    | Fresh                    // putCount or getCount comes next
    | Counted                  // trackActionID comes next
    | Tracked(dup: bool)       // a duplicate comes to duplicateGets or duplicatePuts next
    | Serving                  // inside DoWithLock
    | Hit(local: bool)         // GET hit: hitCount comes next
    | Sourcing(local: bool)    // localCacheHits or backendCacheHits comes next
    | Finished(how: Outcome)

  /** `dup` says that it was counted as a duplicate. */
  datatype Handler = Handler(get: bool, key: string, dup: bool, pc: Pc)

  /** How the callback of a handler ends. */
  datatype Outcome = LocalHit | BackendHit | NoHit

  datatype State = State(gets: nat, puts: nat, dupGets: nat, dupPuts: nat, hits: nat, localHits: nat, backendHits: nat,
                         seen: map<string, nat>, handlers: map<Id, Handler>)

  function Count(seen: map<string, nat>, key: string): nat {
    if key in seen then seen[key] else 0
  }

  function Move(s: State, i: Id, pc: Pc): State
    requires i in s.handlers
  {
    s.(handlers := s.handlers[i := s.handlers[i].(pc := pc)])
  }

  /** One atomic update by handler `i`. */
  function Step(s: State, i: Id, o: Outcome): Option<State> {
    if i !in s.handlers then None
    else
      var h := s.handlers[i];
      match h.pc
      case Fresh => Some(if h.get then Move(s, i, Counted).(gets := s.gets + 1) else Move(s, i,
          Counted).(puts := s.puts + 1))
      case Counted =>
        var n := Count(s.seen, h.key);
        Some(Move(s, i, Tracked(n > 0)).(seen := s.seen[h.key := n + 1]))
      case Tracked(dup) =>
        var u := s.(handlers := s.handlers[i := h.(dup := dup, pc := Serving)]);
        Some(if !dup then u else if h.get then u.(dupGets := s.dupGets + 1) else u.(dupPuts := s.dupPuts + 1))
      case Serving => Some(Move(s, i, if h.get && !o.NoHit? then Hit(o.LocalHit?) else Finished(NoHit)))
      case Hit(local) => Some(Move(s, i, Sourcing(local)).(hits := s.hits + 1))
      case Sourcing(local) =>
        Some(if local then Move(s, i, Finished(LocalHit)).(localHits := s.localHits + 1)
             else Move(s, i, Finished(BackendHit)).(backendHits := s.backendHits + 1))
      case Finished(_) => None
  }

  datatype Label = Label(i: Id, o: Outcome)

  function Run(s: State, ls: seq<Label>): Option<State>
    decreases |ls|
  {
    if ls == [] then Some(s)
    else
      var u := Step(s, ls[0].i, ls[0].o);
      if u.None? then None else Run(u.value, ls[1..])
  }

  predicate Initial(s: State) {
    && s.gets == s.puts == s.dupGets == s.dupPuts == s.hits == s.localHits == s.backendHits == 0 && s.seen == map[]
    && forall i :: i in s.handlers ==> s.handlers[i].pc.Fresh? && !s.handlers[i].dup
  }

  // ---------------------------------------------------------------- handlers in the middle of an update

  datatype Watch =
    | Untracked     // counted, but not yet in the map of seen action IDs
    | Undeclared    // known to be a duplicate, but not yet counted as one
    | Unsourced     // counted as a hit, but not yet by source
    | Missing       // a GET that is counted, still going on, and not yet counted as a hit
    | AnyGet        // a GET that is counted
    | AnyPut        // a PUT that is counted
    | DupGet        // a GET that was counted as a duplicate
    | DupPut        // a PUT that was counted as a duplicate
    | FoundHere     // a hit on the local cache, counted as one
    | FoundThere    // a hit on the backend, counted as one

  predicate Counts(w: Watch, h: Handler) {
    match w
    case Untracked => h.pc.Counted?
    case Undeclared => h.pc.Tracked? && h.pc.dup
    case Unsourced => h.pc.Sourcing?
    case Missing => h.get && !h.pc.Fresh? && !h.pc.Sourcing? && !h.pc.Finished?
    case AnyGet => h.get && !h.pc.Fresh?
    case AnyPut => !h.get && !h.pc.Fresh?
    case DupGet => h.get && h.dup
    case DupPut => !h.get && h.dup
    case FoundHere => h.pc == Finished(LocalHit)
    case FoundThere => h.pc == Finished(BackendHit)
  }

  function Weight(w: Watch, h: Handler): nat {
    if Counts(w, h) then 1 else 0
  }

  function Weights(hs: map<Id, Handler>, w: Watch): map<Id, nat> {
    map i | i in hs :: Weight(w, hs[i])
  }

  /** How many handlers are where `w` looks. */
  ghost function Slack(hs: map<Id, Handler>, w: Watch): nat {
    Sum(Weights(hs, w))
  }

  lemma SlackMove(hs: map<Id, Handler>, i: Id, h: Handler, w: Watch)
    requires i in hs
    ensures Slack(hs[i := h], w) + Weight(w, hs[i]) == Slack(hs, w) + Weight(w, h)
  {
    hide Weight;
    assert Weights(hs[i := h], w) == Weights(hs, w)[i := Weight(w, h)];
    SumUpdate(Weights(hs, w), i, Weight(w, h));
    SumWithout(Weights(hs, w), i);
  }

  lemma SlackZero(hs: map<Id, Handler>, w: Watch)
    requires forall i :: i in hs ==> !Counts(w, hs[i])
    ensures Slack(hs, w) == 0
  {
    SumZero(Weights(hs, w));
  }

  lemma {:induction false} SumZero<K>(m: map<K, nat>)
    requires forall k :: k in m ==> m[k] == 0
    ensures Sum(m) == 0
    decreases |m|
  {
    if m != map[] {
      var k :| k in m;
      SumWithout(m, k);
      SumZero(m - {k});
    }
  }

  lemma CountUp(seen: map<string, nat>, key: string)
    ensures Sum(seen[key := Count(seen, key) + 1]) == Sum(seen) + 1
  {
    SumUpdate(seen, key, Count(seen, key) + 1);
    if key in seen {
      SumWithout(seen, key);
    } else {
      assert seen - {key} == seen;
    }
  }

  // ---------------------------------------------------------------- conservation

  function Unique(seen: map<string, nat>): nat {
    |seen|
  }

  predicate AllSeen(seen: map<string, nat>) {
    forall k :: k in seen ==> seen[k] > 0
  }

  /** Requests, by action ID: every one is the first of its action ID or a duplicate. */
  ghost predicate RequestsAddUp(s: State) {
    && s.gets + s.puts == Unique(s.seen) + s.dupGets + s.dupPuts + Slack(s.handlers, Untracked) + Slack(s.handlers,
        Undeclared)
    && AllSeen(s.seen)
  }

  ghost predicate SeenAddUp(s: State) {
    s.gets + s.puts == Sum(s.seen) + Slack(s.handlers, Untracked)
  }

  ghost predicate HitsAddUp(s: State) {
    && s.hits == s.localHits + s.backendHits + Slack(s.handlers, Unsourced)
    && s.hits + Slack(s.handlers, Missing) <= s.gets
    && s.gets == Slack(s.handlers, AnyGet)
  }

  predicate OnlyGetsHit(s: State) {
    forall i :: i in s.handlers && (s.handlers[i].pc.Hit? || s.handlers[i].pc.Sourcing?) ==> s.handlers[i].get
  }

  /** Each counter is the number of handlers of its kind. */
  ghost predicate KindsAddUp(s: State) {
    && s.gets == Slack(s.handlers, AnyGet) && s.puts == Slack(s.handlers, AnyPut)
    && s.dupGets == Slack(s.handlers, DupGet) && s.dupPuts == Slack(s.handlers, DupPut)
    && s.localHits == Slack(s.handlers, FoundHere) && s.backendHits == Slack(s.handlers, FoundThere)
  }

  /** Nobody is a duplicate who has not been looked up. */
  predicate LookedUpFirst(s: State) {
    forall i :: i in s.handlers && (s.handlers[i].pc.Fresh? || s.handlers[i].pc.Counted? || s.handlers[i].pc.Tracked?)
      ==> !s.handlers[i].dup
  }

  ghost predicate Inv(s: State) {
    RequestsAddUp(s) && SeenAddUp(s) && HitsAddUp(s) && OnlyGetsHit(s) && KindsAddUp(s) && LookedUpFirst(s)
  }

  /** The handler's new program point. */
  lemma StepMoves(s: State, i: Id, o: Outcome)
    requires Step(s, i, o).Some?
    ensures i in Step(s, i, o).value.handlers
    ensures var h := Step(s, i, o).value.handlers[i];
      Step(s, i, o).value.handlers == s.handlers[i := h] && h.get == s.handlers[i].get
  {
  }

  function One(b: bool): nat {
    if b then 1 else 0
  }

  /** What an action of handler `h` adds to the request counters. */
  lemma StepCountsRequests(s: State, i: Id, o: Outcome)
    requires Step(s, i, o).Some?
    ensures var u := Step(s, i, o).value; var h := s.handlers[i];
      && u.gets + u.puts == s.gets + s.puts + One(h.pc.Fresh?)
      && u.dupGets + u.dupPuts == s.dupGets + s.dupPuts + One(h.pc.Tracked? && h.pc.dup)
      && u.seen == (if h.pc.Counted? then s.seen[h.key := Count(s.seen, h.key) + 1] else s.seen)
      && (u.handlers[i].pc.Counted? <==> h.pc.Fresh?)
      && (u.handlers[i].pc.Tracked? <==> h.pc.Counted?)
      && (h.pc.Counted? ==> (u.handlers[i].pc.dup <==> Count(s.seen, h.key) > 0))
  {
  }

  lemma SlackStep(s: State, i: Id, o: Outcome, w: Watch)
    requires Step(s, i, o).Some?
    ensures var u := Step(s, i, o).value;
      Slack(u.handlers, w) + Weight(w, s.handlers[i]) == Slack(s.handlers, w) + Weight(w, u.handlers[i])
  {
    StepMoves(s, i, o);
    hide Step;
    SlackMove(s.handlers, i, Step(s, i, o).value.handlers[i], w);
  }

  lemma RequestWeights(s: State, i: Id, o: Outcome)
    requires Step(s, i, o).Some?
    ensures var h := s.handlers[i]; var k := Step(s, i, o).value.handlers[i];
      && Weight(Untracked, h) == (if h.pc.Counted? then 1 else 0) && Weight(Untracked, k) == One(h.pc.Fresh?)
      && Weight(Undeclared, h) == One(h.pc.Tracked? && h.pc.dup)
      && Weight(Undeclared, k) == (if h.pc.Counted? then One(Count(s.seen, h.key) > 0) else 0)
  {
    StepCountsRequests(s, i, o);
    hide Step;
  }

  lemma SeenAfter(seen: map<string, nat>, key: string)
    requires AllSeen(seen)
    ensures var m := seen[key := Count(seen, key) + 1];
      Unique(m) + One(Count(seen, key) > 0) == Unique(seen) + 1 && Sum(m) == Sum(seen) + 1 && AllSeen(m)
  {
    CountUp(seen, key);
  }

  lemma StepKeepsRequests(s: State, i: Id, o: Outcome)
    requires RequestsAddUp(s) && Step(s, i, o).Some?
    ensures RequestsAddUp(Step(s, i, o).value)
  {
    StepCountsRequests(s, i, o);
    RequestWeights(s, i, o);
    SlackStep(s, i, o, Untracked);
    SlackStep(s, i, o, Undeclared);
    hide Slack;
    hide Sum;
    hide Step;
    hide Weight;
    hide Count;
    hide Unique;
    hide AllSeen;
    SeenAfter(s.seen, s.handlers[i].key);
  }

  lemma StepKeepsSeen(s: State, i: Id, o: Outcome)
    requires SeenAddUp(s) && Step(s, i, o).Some?
    ensures SeenAddUp(Step(s, i, o).value)
  {
    StepCountsRequests(s, i, o);
    RequestWeights(s, i, o);
    SlackStep(s, i, o, Untracked);
    CountUp(s.seen, s.handlers[i].key);
    hide Slack;
    hide Sum;
    hide Step;
    hide Weight;
    hide Count;
  }

  /** What an action of handler `h` adds to the hit counters. */
  lemma StepCountsHits(s: State, i: Id, o: Outcome)
    requires OnlyGetsHit(s) && Step(s, i, o).Some?
    ensures var u := Step(s, i, o).value; var h := s.handlers[i];
      && u.gets == s.gets + One(h.get && h.pc.Fresh?)
      && u.hits == s.hits + One(h.pc.Hit?)
      && u.localHits + u.backendHits == s.localHits + s.backendHits + One(h.pc.Sourcing?)
      && u.handlers[i].get == h.get && !u.handlers[i].pc.Fresh?
      && (u.handlers[i].pc.Sourcing? <==> h.pc.Hit?)
      && (u.handlers[i].pc.Finished? ==> !h.pc.Fresh?)
      && (h.pc.Sourcing? ==> u.handlers[i].pc.Finished?)
      && OnlyGetsHit(u)
  {
  }

  lemma HitWeights(s: State, i: Id, o: Outcome)
    requires OnlyGetsHit(s) && Step(s, i, o).Some?
    ensures var h := s.handlers[i]; var k := Step(s, i, o).value.handlers[i];
      && Weight(Unsourced, h) == One(h.pc.Sourcing?) && Weight(Unsourced, k) == One(h.pc.Hit?)
      && Weight(Missing, k) + One(h.pc.Hit?) <= Weight(Missing, h) + One(h.get && h.pc.Fresh?)
      && Weight(AnyGet, k) == Weight(AnyGet, h) + One(h.get && h.pc.Fresh?)
  {
    StepCountsHits(s, i, o);
    NotFinished(s, i, o);
    assert s.handlers[i].pc.Hit? ==> s.handlers[i].get;
    hide Step;
    hide OnlyGetsHit;
  }

  lemma StepKeepsHits(s: State, i: Id, o: Outcome)
    requires HitsAddUp(s) && OnlyGetsHit(s) && Step(s, i, o).Some?
    ensures HitsAddUp(Step(s, i, o).value) && OnlyGetsHit(Step(s, i, o).value)
  {
    StepCountsHits(s, i, o);
    HitWeights(s, i, o);
    SlackStep(s, i, o, Unsourced);
    SlackStep(s, i, o, Missing);
    SlackStep(s, i, o, AnyGet);
    hide Slack;
    hide OnlyGetsHit;
    hide Step;
    hide Weight;
    hide One;
  }

  lemma CallWeights(s: State, i: Id, o: Outcome)
    requires Step(s, i, o).Some?
    ensures var u := Step(s, i, o).value; var h := s.handlers[i]; var k := u.handlers[i];
      && u.gets + Weight(AnyGet, h) == s.gets + Weight(AnyGet, k)
      && u.puts + Weight(AnyPut, h) == s.puts + Weight(AnyPut, k)
      && u.localHits + Weight(FoundHere, h) == s.localHits + Weight(FoundHere, k)
      && u.backendHits + Weight(FoundThere, h) == s.backendHits + Weight(FoundThere, k)
  {
  }

  lemma DupWeights(s: State, i: Id, o: Outcome)
    requires LookedUpFirst(s) && Step(s, i, o).Some?
    ensures var u := Step(s, i, o).value; var h := s.handlers[i]; var k := u.handlers[i];
      && u.dupGets + Weight(DupGet, h) == s.dupGets + Weight(DupGet, k)
      && u.dupPuts + Weight(DupPut, h) == s.dupPuts + Weight(DupPut, k)
      && LookedUpFirst(u)
  {
  }

  lemma StepKeepsKinds(s: State, i: Id, o: Outcome)
    requires KindsAddUp(s) && LookedUpFirst(s) && Step(s, i, o).Some?
    ensures KindsAddUp(Step(s, i, o).value) && LookedUpFirst(Step(s, i, o).value)
  {
    CallWeights(s, i, o);
    DupWeights(s, i, o);
    SlackStep(s, i, o, AnyGet);
    SlackStep(s, i, o, AnyPut);
    SlackStep(s, i, o, DupGet);
    SlackStep(s, i, o, DupPut);
    SlackStep(s, i, o, FoundHere);
    SlackStep(s, i, o, FoundThere);
    hide Slack;
    hide LookedUpFirst;
    hide Step;
    hide Weight;
  }

  lemma NotFinished(s: State, i: Id, o: Outcome)
    requires Step(s, i, o).Some?
    ensures !s.handlers[i].pc.Finished?
  {
  }

  lemma {:induction false} RunKeepsInv(s: State, ls: seq<Label>)
    requires Inv(s) && Run(s, ls).Some?
    ensures Inv(Run(s, ls).value)
    decreases |ls|
  {
    hide RequestsAddUp;
    hide SeenAddUp;
    hide HitsAddUp;
    hide OnlyGetsHit;
    hide KindsAddUp;
    hide LookedUpFirst;
    if ls != [] {
      StepKeepsKinds(s, ls[0].i, ls[0].o);
      StepKeepsSeen(s, ls[0].i, ls[0].o);
      StepKeepsRequests(s, ls[0].i, ls[0].o);
      StepKeepsHits(s, ls[0].i, ls[0].o);
      RunKeepsInv(Step(s, ls[0].i, ls[0].o).value, ls[1..]);
    }
  }

  lemma InitialInv(s: State)
    requires Initial(s)
    ensures Inv(s)
  {
    hide Slack;
    SlackZero(s.handlers, Untracked);
    SlackZero(s.handlers, Undeclared);
    SlackZero(s.handlers, Unsourced);
    SlackZero(s.handlers, Missing);
    SlackZero(s.handlers, AnyGet);
    SlackZero(s.handlers, AnyPut);
    SlackZero(s.handlers, DupGet);
    SlackZero(s.handlers, DupPut);
    SlackZero(s.handlers, FoundHere);
    SlackZero(s.handlers, FoundThere);
    SumZero(s.seen);
  }

  /** At any moment, whoever is in the middle of an update: hits never exceed GETs, so missCount is not negative. */
  lemma MissesNeverNegative(s0: State, ls: seq<Label>)
    requires Initial(s0) && Run(s0, ls).Some?
    ensures var s := Run(s0, ls).value;
      s.hits <= s.gets && s.localHits + s.backendHits <= s.hits && s.dupGets + s.dupPuts <= s.gets + s.puts
  {
    InitialInv(s0);
    hide Initial;
    hide Sum;
    hide Slack;
    hide Step;
    hide Run;
    RunKeepsInv(s0, ls);
  }

  lemma NobodyBetween(hs: map<Id, Handler>)
    requires forall i :: i in hs ==> hs[i].pc.Finished?
    ensures Slack(hs, Untracked) == Slack(hs, Undeclared) == Slack(hs, Unsourced) == 0
  {
    SlackZero(hs, Untracked);
    SlackZero(hs, Undeclared);
    SlackZero(hs, Unsourced);
  }

  /** Once every handler is done, as it is when Run prints them, the totals agree exactly. */
  lemma TotalsAgree(s0: State, ls: seq<Label>)
    requires Initial(s0) && Run(s0, ls).Some?
    requires forall i :: i in Run(s0, ls).value.handlers ==> Run(s0, ls).value.handlers[i].pc.Finished?
    ensures var s := Run(s0, ls).value;
      && s.gets + s.puts == |s.seen| + s.dupGets + s.dupPuts == Sum(s.seen)
      && s.hits == s.localHits + s.backendHits <= s.gets
  {
    InitialInv(s0);
    hide KindsAddUp;
    hide LookedUpFirst;
    hide OnlyGetsHit;
    hide Initial;
    hide Sum;
    hide Slack;
    hide Step;
    hide Run;
    RunKeepsInv(s0, ls);
    var s := Run(s0, ls).value;
    NobodyBetween(s.handlers);
  }

  function Those(hs: map<Id, Handler>, w: Watch): set<Id> {
    set i | i in hs && Counts(w, hs[i])
  }

  lemma SlackWithout(hs: map<Id, Handler>, w: Watch, i: Id)
    requires i in hs
    ensures Slack(hs, w) == Weight(w, hs[i]) + Slack(hs - {i}, w)
  {
    hide Weight;
    SumWithout(Weights(hs, w), i);
    assert Weights(hs, w) - {i} == Weights(hs - {i}, w);
    hide Sum;
  }

  lemma ThoseWithout(hs: map<Id, Handler>, w: Watch, i: Id)
    requires i in hs
    ensures |Those(hs, w)| == Weight(w, hs[i]) + |Those(hs - {i}, w)|
  {
    var all, rest := Those(hs, w), Those(hs - {i}, w);
    assert i !in rest && (i in all <==> Counts(w, hs[i]));
    forall k | k != i ensures k in all <==> k in rest {
      assert k in hs ==> (hs - {i})[k] == hs[k];
    }
    hide Those;
    hide Counts;
    if i in all {
      assert all == rest + {i};
    } else {
      assert all == rest;
    }
  }

  lemma {:induction false} SlackCounts(hs: map<Id, Handler>, w: Watch)
    ensures Slack(hs, w) == |Those(hs, w)|
    decreases |hs|
  {
    if hs == map[] {
      SlackZero(hs, w);
    } else {
      var i :| i in hs;
      SlackWithout(hs, w, i);
      ThoseWithout(hs, w, i);
      SlackCounts(hs - {i}, w);
      hide Slack;
      hide Those;
    }
  }

  /**
    At any moment each counter is the number of handlers it is named after: PUTs and GETs that were counted, those
    whose action ID had been seen before, and the hits that were answered from the local cache and from the backend.
   */
  lemma CountersTell(s0: State, ls: seq<Label>)
    requires Initial(s0) && Run(s0, ls).Some?
    ensures var s := Run(s0, ls).value;
      && s.gets == |Those(s.handlers, AnyGet)| && s.puts == |Those(s.handlers, AnyPut)|
      && s.dupGets == |Those(s.handlers, DupGet)| && s.dupPuts == |Those(s.handlers, DupPut)|
      && s.localHits == |Those(s.handlers, FoundHere)| && s.backendHits == |Those(s.handlers, FoundThere)|
  {
    InitialInv(s0);
    RunKeepsInv(s0, ls);
    var hs := Run(s0, ls).value.handlers;
    SlackCounts(hs, AnyGet);
    SlackCounts(hs, AnyPut);
    SlackCounts(hs, DupGet);
    SlackCounts(hs, DupPut);
    SlackCounts(hs, FoundHere);
    SlackCounts(hs, FoundThere);
    hide Initial;
    hide Sum;
    hide Slack;
    hide Those;
    hide Step;
    hide Run;
  }

  // ---------------------------------------------------------------- the code

  /** seenActionIDs */
  class SeenActionIDs {
    var ids: map<string, nat>

    constructor ()
      ensures ids == map[]
    {
      ids := map[];
    }

    /** trackActionID on the hex form of an action ID. */
    method Track(actionID: string) returns (duplicate: bool)
      modifies this
      ensures ids == old(ids)[actionID := Count(old(ids), actionID) + 1]
      ensures duplicate <==> Count(old(ids), actionID) > 0
    {
      var count: nat := 0;
      if actionID in ids {
        count := ids[actionID];
      }
      ids := ids[actionID := count + 1];
      duplicate := count > 0;
    }
  }
}
