/**
  The in-process lock (pkg/locking/memlock.go:20-31): one mutex per key, created on first use under an outer mutex.
  The step machine shows that it is one lock per key, which is how Protocol uses it.
 */
module MemLock {
  import opened Basics
  import opened Sums

  type Id = nat   // a goroutine inside DoWithLock
  type Ref = nat  // a per-key mutex

  datatype Pc =
    | Arriving            // about to lock the outer mutex
    | Looking             // s.locks[key]
    | Allocating          // no entry: about to create a mutex
    | Inserting(ref: Ref)
    | Leaving(ref: Ref)   // about to unlock the outer mutex
    | Waiting(ref: Ref)   // about to lock the key's mutex
    | Running(ref: Ref)   // inside fn
    | Returned

  datatype Caller = Caller(key: string, pc: Pc)

  datatype State = State(outer: Option<Id>, locks: map<string, Ref>, made: nat, held: map<Ref, Id>, callers: map<Id,
                         Caller>)

  predicate InOuter(pc: Pc) {
    pc.Looking? || pc.Allocating? || pc.Inserting? || pc.Leaving?
  }

  function To(s: State, i: Id, pc: Pc): map<Id, Caller>
    requires i in s.callers
  {
    s.callers[i := Caller(s.callers[i].key, pc)]
  }

  /** One action of goroutine `i`; None while it has to wait or has returned. */
  function Step(s: State, i: Id): Option<State> {
    if i !in s.callers then None
    else
      var c := s.callers[i];
      match c.pc
      case Arriving => if s.outer.Some? then None else Some(s.(outer := Some(i), callers := To(s, i, Looking)))
      case Looking => Some(s.(callers := To(s, i, if c.key in s.locks then Leaving(s.locks[c.key]) else Allocating)))
      case Allocating => Some(s.(made := s.made + 1, callers := To(s, i, Inserting(s.made))))
      case Inserting(r) => Some(s.(locks := s.locks[c.key := r], callers := To(s, i, Leaving(r))))
      case Leaving(r) => Some(s.(outer := None, callers := To(s, i, Waiting(r))))
      case Waiting(r) => if r in s.held then None else Some(s.(held := s.held[r := i], callers := To(s, i, Running(r))))
      case Running(r) => Some(s.(held := s.held - {r}, callers := To(s, i, Returned)))
      case Returned => None
  }

  function Run(s: State, sched: seq<Id>): Option<State>
    decreases |sched|
  {
    if sched == [] then Some(s)
    else
      var u := Step(s, sched[0]);
      if u.None? then None else Run(u.value, sched[1..])
  }

  predicate Initial(s: State) {
    s.outer.None? && s.locks == map[] && s.held == map[] && forall i :: i in s.callers ==> s.callers[i].pc.Arriving?
  }

  // ---------------------------------------------------------------- invariant

  predicate RefOk(s: State, key: string, r: Ref) {
    key in s.locks && s.locks[key] == r
  }

  predicate CallerOk(s: State, i: Id, c: Caller) {
    && (InOuter(c.pc) ==> s.outer == Some(i))
    && (c.pc.Allocating? ==> c.key !in s.locks)
    && (c.pc.Inserting? ==> c.key !in s.locks && c.pc.ref < s.made)
    && (c.pc.Inserting? ==> forall k :: k in s.locks ==> s.locks[k] != c.pc.ref)
    && (c.pc.Leaving? || c.pc.Waiting? ==> RefOk(s, c.key, c.pc.ref))
    && (c.pc.Running? ==> RefOk(s, c.key, c.pc.ref) && c.pc.ref in s.held && s.held[c.pc.ref] == i)
  }

  predicate Injective(locks: map<string, Ref>) {
    forall j, k :: j in locks && k in locks && locks[j] == locks[k] ==> j == k
  }

  predicate Inv(s: State) {
    && Injective(s.locks)
    && (forall k :: k in s.locks ==> s.locks[k] < s.made)
    && (s.outer.Some? ==> s.outer.value in s.callers && InOuter(s.callers[s.outer.value].pc))
    && (forall i :: i in s.callers ==> CallerOk(s, i, s.callers[i]))
    && (forall r :: r in s.held ==> s.held[r] in s.callers && s.callers[s.held[r]].pc == Running(r))
  }

  /** The map only grows and never binds a key anew. */
  predicate Extends(l: map<string, Ref>, m: map<string, Ref>) {
    forall k :: k in l ==> k in m && m[k] == l[k]
  }

  lemma OuterKeepsInv(s: State, i: Id)
    requires Inv(s) && Step(s, i).Some?
    requires (s.callers[i].pc.Arriving? || s.callers[i].pc.Looking? || s.callers[i].pc.Leaving?)
    ensures Inv(Step(s, i).value)
  {
    var u := Step(s, i).value;
    assert CallerOk(s, i, s.callers[i]);
    forall j | j in u.callers ensures CallerOk(u, j, u.callers[j]) {
      assert CallerOk(s, j, s.callers[j]);
    }
  }

  lemma CreateKeepsInv(s: State, i: Id)
    requires Inv(s) && Step(s, i).Some? && (s.callers[i].pc.Allocating? || s.callers[i].pc.Inserting?)
    ensures Inv(Step(s, i).value) && Extends(s.locks, Step(s, i).value.locks)
  {
    var u := Step(s, i).value;
    assert CallerOk(s, i, s.callers[i]);
    forall j | j in u.callers ensures CallerOk(u, j, u.callers[j]) {
      assert CallerOk(s, j, s.callers[j]);
    }
  }

  lemma KeyKeepsInv(s: State, i: Id)
    requires Inv(s) && Step(s, i).Some? && (s.callers[i].pc.Waiting? || s.callers[i].pc.Running?)
    ensures Inv(Step(s, i).value)
  {
    var u := Step(s, i).value;
    assert CallerOk(s, i, s.callers[i]);
    forall j | j in u.callers ensures CallerOk(u, j, u.callers[j]) {
      assert CallerOk(s, j, s.callers[j]);
    }
  }

  lemma StepKeepsInv(s: State, i: Id)
    requires Inv(s) && Step(s, i).Some?
    ensures Inv(Step(s, i).value) && Extends(s.locks, Step(s, i).value.locks)
  {
    hide Inv;
    var pc := s.callers[i].pc;
    if pc.Waiting? || pc.Running? {
      KeyKeepsInv(s, i);
    } else if pc.Allocating? || pc.Inserting? {
      CreateKeepsInv(s, i);
    } else {
      OuterKeepsInv(s, i);
    }
  }

  lemma {:induction false} RunKeepsInv(s: State, sched: seq<Id>)
    requires Inv(s) && Run(s, sched).Some?
    ensures Inv(Run(s, sched).value) && Extends(s.locks, Run(s, sched).value.locks)
    decreases |sched|
  {
    if sched != [] {
      StepKeepsInv(s, sched[0]);
      RunKeepsInv(Step(s, sched[0]).value, sched[1..]);
    }
  }

  // ---------------------------------------------------------------- what a key's lock gives

  /**
    In every interleaving at most one goroutine runs its function per key, and the key-to-mutex map stays one-to-one.
   */
  lemma OneRunnerPerKey(s0: State, sched: seq<Id>, a: Id, b: Id)
    requires Initial(s0) && Run(s0, sched).Some?
    ensures var s := Run(s0, sched).value;
      && Injective(s.locks)
      && (a in s.callers && b in s.callers && s.callers[a].key == s.callers[b].key ==>
            s.callers[a].pc.Running? && s.callers[b].pc.Running? ==> a == b)
  {
    RunKeepsInv(s0, sched);
    var s := Run(s0, sched).value;
    assert a in s.callers ==> CallerOk(s, a, s.callers[a]);
    assert b in s.callers ==> CallerOk(s, b, s.callers[b]);
  }

  /** The lock table as Protocol keeps it: which goroutine runs under which key. */
  function Table(s: State): map<string, Id> {
    TableOf(s.locks, s.held)
  }

  function TableOf(locks: map<string, Ref>, held: map<Ref, Id>): map<string, Id> {
    map k | k in locks && locks[k] in held :: held[locks[k]]
  }

  /**
    Lazy creation is invisible: a goroutine waiting for its key's mutex is held up exactly while the table has an
    entry for its own key, taking the mutex adds that entry, leaving removes it, and no other action shows.
   */
  lemma StepIsTableStep(s: State, i: Id)
    requires Inv(s) && i in s.callers
    ensures s.callers[i].pc.Waiting? ==> (Step(s, i).None? <==> s.callers[i].key in Table(s))
    ensures Step(s, i).Some? ==> Table(Step(s, i).value) == TableAfter(s, i)
  {
    var c := s.callers[i];
    assert CallerOk(s, i, c);
    if c.pc.Inserting? {
      InsertIsInvisible(s, i);
    } else if c.pc.Waiting? || c.pc.Running? {
      KeyStepShows(s, i);
    } else if Step(s, i).Some? {
      OuterStepIsInvisible(s, i);
    }
  }

  /** The table after an action of `i`. */
  function TableAfter(s: State, i: Id): map<string, Id>
    requires i in s.callers
  {
    var c := s.callers[i];
    if c.pc.Waiting? then Table(s)[c.key := i] else if c.pc.Running? then Table(s) - {c.key} else Table(s)
  }

  lemma OuterStepIsInvisible(s: State, i: Id)
    requires Step(s, i).Some? && !s.callers[i].pc.Inserting? && !s.callers[i].pc.Waiting? && !s.callers[i].pc.Running?
    ensures Table(Step(s, i).value) == Table(s)
  {
    assert Step(s, i).value.locks == s.locks && Step(s, i).value.held == s.held;
    hide Step;
  }

  /** A mutex somebody holds is in the map. */
  lemma HeldIsBound(s: State, r: Ref) returns (k: string)
    requires Inv(s) && r in s.held
    ensures RefOk(s, k, r)
  {
    var j := s.held[r];
    assert CallerOk(s, j, s.callers[j]);
    k := s.callers[j].key;
  }

  lemma InsertIsInvisible(s: State, i: Id)
    requires Inv(s) && i in s.callers && s.callers[i].pc.Inserting?
    ensures Step(s, i).Some? && Table(Step(s, i).value) == Table(s)
  {
    var c := s.callers[i];
    assert CallerOk(s, i, c);
    if c.pc.ref in s.held {
      var k := HeldIsBound(s, c.pc.ref);
    }
    assert Step(s, i).value.held == s.held && Step(s, i).value.locks == s.locks[c.key := c.pc.ref];
  }

  lemma TableEntry(locks: map<string, Ref>, held: map<Ref, Id>, k: string)
    ensures Get(TableOf(locks, held), k) == if k in locks then Get(held, locks[k]) else None
  {
  }

  /** Maps with the same entries are equal. */
  lemma SameEntries(m: map<string, Id>, n: map<string, Id>)
    requires forall k: string :: Get(m, k) == Get(n, k)
    ensures m == n
  {
    forall k: string ensures (k in m <==> k in n) && (k in m ==> m[k] == n[k]) {
      assert Get(m, k) == Get(n, k);
    }
  }

  lemma TableGains(locks: map<string, Ref>, held: map<Ref, Id>, key: string, i: Id)
    requires Injective(locks) && key in locks
    ensures TableOf(locks, held[locks[key] := i]) == TableOf(locks, held)[key := i]
  {
    var m, n := TableOf(locks, held[locks[key] := i]), TableOf(locks, held)[key := i];
    forall k: string ensures Get(m, k) == Get(n, k) {
      TableEntry(locks, held[locks[key] := i], k);
      TableEntry(locks, held, k);
    }
    SameEntries(m, n);
  }

  lemma TableLoses(locks: map<string, Ref>, held: map<Ref, Id>, key: string)
    requires Injective(locks) && key in locks
    ensures TableOf(locks, held - {locks[key]}) == TableOf(locks, held) - {key}
  {
    var m, n := TableOf(locks, held - {locks[key]}), TableOf(locks, held) - {key};
    forall k: string ensures Get(m, k) == Get(n, k) {
      TableEntry(locks, held - {locks[key]}, k);
      TableEntry(locks, held, k);
    }
    SameEntries(m, n);
  }

  lemma KeyStepShows(s: State, i: Id)
    requires Inv(s) && i in s.callers && (s.callers[i].pc.Waiting? || s.callers[i].pc.Running?)
    ensures s.callers[i].pc.Waiting? ==> (Step(s, i).None? <==> s.callers[i].key in Table(s))
    ensures Step(s, i).Some? ==> Table(Step(s, i).value) == TableAfter(s, i)
  {
    assert CallerOk(s, i, s.callers[i]);
    TableGains(s.locks, s.held, s.callers[i].key, i);
    TableLoses(s.locks, s.held, s.callers[i].key);
    TableEntry(s.locks, s.held, s.callers[i].key);
    hide TableOf;
    hide Inv;
  }

  // ---------------------------------------------------------------- progress

  function Left(pc: Pc): nat {
    match pc
    case Arriving => 7
    case Looking => 6
    case Allocating => 5
    case Inserting(_) => 4
    case Leaving(_) => 3
    case Waiting(_) => 2
    case Running(_) => 1
    case Returned => 0
  }

  /** Every action brings its own goroutine closer to its return and no other further away. */
  lemma StepShortens(s: State, i: Id, j: Id)
    requires Step(s, i).Some? && j in s.callers
    ensures j in Step(s, i).value.callers && Step(s, i).value.callers.Keys == s.callers.Keys
    ensures var n := Left(Step(s, i).value.callers[j].pc);
      if i == j then n < Left(s.callers[j].pc) else n == Left(s.callers[j].pc)
  {
  }

  /**
    No deadlock: while some goroutine has not returned, some goroutine can act. Whoever holds the outer mutex never
    waits for a key, because it gives the outer mutex up first.
   */
  lemma NeverStuck(s: State, i: Id) returns (j: Id)
    requires Inv(s) && i in s.callers && !s.callers[i].pc.Returned?
    ensures Step(s, j).Some?
  {
    assert CallerOk(s, i, s.callers[i]);
    if s.callers[i].pc.Arriving? && s.outer.Some? {
      j := s.outer.value;
    } else if s.callers[i].pc.Waiting? && s.callers[i].pc.ref in s.held {
      j := s.held[s.callers[i].pc.ref];
    } else {
      j := i;
    }
  }

  function Lefts(callers: map<Id, Caller>): map<Id, nat> {
    map i | i in callers :: Left(callers[i].pc)
  }

  lemma StepLowersSum(s: State, i: Id)
    requires Step(s, i).Some?
    ensures Sum(Lefts(Step(s, i).value.callers)) < Sum(Lefts(s.callers))
  {
    var u := Step(s, i).value;
    StepMovesOne(s, i);
    SumUpdate(Lefts(s.callers), i, Left(u.callers[i].pc));
    SumWithout(Lefts(s.callers), i);
    assert Lefts(u.callers) == Lefts(s.callers)[i := Left(u.callers[i].pc)];
  }

  lemma StepMovesOne(s: State, i: Id)
    requires Step(s, i).Some?
    ensures i in s.callers && i in Step(s, i).value.callers
    ensures Step(s, i).value.callers == s.callers[i := Step(s, i).value.callers[i]]
    ensures Left(Step(s, i).value.callers[i].pc) < Left(s.callers[i].pc)
  {
  }

  /** No run is longer than the goroutines' ways together, and one that cannot go on has brought them all back. */
  lemma {:induction false} RunsEnd(s: State, sched: seq<Id>)
    requires Inv(s) && Run(s, sched).Some?
    ensures |sched| + Sum(Lefts(Run(s, sched).value.callers)) <= Sum(Lefts(s.callers))
    ensures var u := Run(s, sched).value;
      (forall j :: Step(u, j).None?) ==> forall i :: i in u.callers ==> u.callers[i].pc.Returned?
    decreases |sched|
  {
    hide Inv;
    hide Step;
    hide Sum;
    if sched != [] {
      StepLowersSum(s, sched[0]);
      StepKeepsInv(s, sched[0]);
      RunsEnd(Step(s, sched[0]).value, sched[1..]);
    } else if i :| i in s.callers && !s.callers[i].pc.Returned? {
      var j := NeverStuck(s, i);
    }
  }

  /** The lock table as Protocol changes it: a free key is taken, or a taken one is given back. */
  ghost predicate TableNext(a: map<string, Id>, b: map<string, Id>) {
    || a == b
    || (exists k :: k !in a && k in b && b == a[k := b[k]])
    || (exists k :: k in a && b == a - {k})
  }

  lemma StepIsTableNext(s: State, i: Id)
    requires Inv(s) && Step(s, i).Some?
    ensures TableNext(Table(s), Table(Step(s, i).value))
  {
    StepIsTableStep(s, i);
    var c := s.callers[i];
    if c.pc.Waiting? {
      var b := Table(Step(s, i).value);
      assert b == Table(s)[c.key := i] && b == Table(s)[c.key := b[c.key]];
    } else if c.pc.Running? {
      assert CallerOk(s, i, c);
      assert c.key in Table(s) && Table(Step(s, i).value) == Table(s) - {c.key};
    }
    hide TableOf;
    hide Inv;
    hide Step;
  }

  /** Every run is, seen through the table, a run of a plain lock table. */
  lemma {:induction false} RunIsTableRun(s: State, sched: seq<Id>) returns (tr: seq<map<string, Id>>)
    requires Inv(s) && Run(s, sched).Some?
    ensures |tr| == |sched| + 1 && tr[0] == Table(s) && tr[|sched|] == Table(Run(s, sched).value)
    ensures forall k :: 0 <= k < |sched| ==> TableNext(tr[k], tr[k + 1])
    decreases |sched|
  {
    hide Inv;
    hide Step;
    hide Table;
    hide TableNext;
    if sched == [] {
      tr := [Table(s)];
    } else {
      StepIsTableNext(s, sched[0]);
      StepKeepsInv(s, sched[0]);
      var rest := RunIsTableRun(Step(s, sched[0]).value, sched[1..]);
      tr := [Table(s)] + rest;
    }
  }

  // ---------------------------------------------------------------- the code

  class Mutex {
    constructor ()
    {
    }
  }

  /** The group's map of mutexes; LockFor is the part of DoWithLock that runs under the outer mutex. */
  class Group {
    var locks: map<string, Mutex>

    predicate Valid()
      reads this
    {
      forall j, k :: j in locks && k in locks && locks[j] == locks[k] ==> j == k
    }

    constructor ()
      ensures Valid() && locks == map[]
    {
      locks := map[];
    }

    method LockFor(key: string) returns (lock: Mutex)
      requires Valid()
      modifies this
      ensures Valid()
      ensures locks == old(locks)[key := lock]
      ensures if key in old(locks) then lock == old(locks)[key] else fresh(lock)
    {
      if key in locks {
        lock := locks[key];
      } else {
        lock := new Mutex();
        assert forall k :: k in locks ==> locks[k] != lock;
        locks := locks[key := lock];
      }
    }
  }
}
