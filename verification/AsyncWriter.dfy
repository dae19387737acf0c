/**
  AsyncBackendWriter as code (async_backend.go:43-117). Its goroutines take their steps one at a time, in whatever
  order the scheduler picks; Drain and Close prove the same inside the step machine, together with handlers and kills.
 */
module AsyncWriter {
  import opened Basics
  import opened Protocol
  import S3

  /** The arguments a goroutine was started with; the body is its own copy. */
  datatype Task = Task(key: Bytes, outputID: Bytes, body: Bytes, size: int64)

  datatype Goroutine = Goroutine(task: Task, pc: JobPc)

  // ---------------------------------------------------------------- counting goroutines

  datatype Watch =
    | Holders     // hold a slot of the semaphore
    | Uncounted   // not yet counted as success or failure

  function One(w: Watch, g: Goroutine): nat {
    match w
    case Holders => if g.pc.Finishing? then 0 else 1
    case Uncounted => if g.pc.Running? || g.pc.Counting? then 1 else 0
  }

  function Count(w: Watch, gs: seq<Goroutine>): nat {
    if gs == [] then 0 else One(w, gs[0]) + Count(w, gs[1..])
  }

  /** The tasks not yet handed to the inner backend. */
  function Pending(gs: seq<Goroutine>): multiset<Task> {
    if gs == [] then multiset{}
    else (if gs[0].pc.Running? then multiset{gs[0].task} else multiset{}) + Pending(gs[1..])
  }

  function StepsLeft(gs: seq<Goroutine>): nat {
    if gs == [] then 0 else Ahead(gs[0].pc) + StepsLeft(gs[1..])
  }

  function Ahead(pc: JobPc): nat {
    match pc
    case Running => 4
    case Counting(_) => 3
    case Releasing => 2
    case Finishing => 1
  }

  function Mine(g: Goroutine): multiset<Task> {
    if g.pc.Running? then multiset{g.task} else multiset{}
  }

  /** A goroutine at position i, the ones before it and the ones after it. */
  lemma {:induction false} Around(gs: seq<Goroutine>, i: nat, w: Watch)
    requires i < |gs|
    ensures Count(w, gs) == Count(w, gs[..i] + gs[i + 1..]) + One(w, gs[i])
    ensures Pending(gs) == Pending(gs[..i] + gs[i + 1..]) + Mine(gs[i])
    ensures StepsLeft(gs) == StepsLeft(gs[..i] + gs[i + 1..]) + Ahead(gs[i].pc)
  {
    if i == 0 {
      assert gs[..0] + gs[1..] == gs[1..];
    } else {
      Around(gs[1..], i - 1, w);
      assert (gs[..i] + gs[i + 1..])[1..] == gs[1..][..i - 1] + gs[1..][i..];
    }
  }

  /** Replacing one goroutine. */
  lemma Replaced(gs: seq<Goroutine>, i: nat, g: Goroutine, w: Watch)
    requires i < |gs|
    ensures Count(w, gs[i := g]) + One(w, gs[i]) == Count(w, gs) + One(w, g)
    ensures Pending(gs[i := g]) + Mine(gs[i]) == Pending(gs) + Mine(g)
    ensures !gs[i].pc.Running? && !g.pc.Running? ==> Pending(gs[i := g]) == Pending(gs)
    ensures StepsLeft(gs[i := g]) + Ahead(gs[i].pc) == StepsLeft(gs) + Ahead(g.pc)
  {
    Around(gs, i, w);
    Around(gs[i := g], i, w);
    assert gs[i := g][..i] == gs[..i] && gs[i := g][i + 1..] == gs[i + 1..];
  }

  lemma Appended(gs: seq<Goroutine>, g: Goroutine, w: Watch)
    ensures Count(w, gs + [g]) == Count(w, gs) + One(w, g)
    ensures Pending(gs + [g]) == Pending(gs) + Mine(g)
  {
    Around(gs + [g], |gs|, w);
    assert (gs + [g])[..|gs|] + (gs + [g])[|gs| + 1..] == gs;
  }

  /** Handing over a pending task. */
  lemma HandedOver(all: multiset<Task>, handed: multiset<Task>, was: multiset<Task>, now: multiset<Task>,
                   mine: multiset<Task>)
    requires all == handed + was && now + mine == was + multiset{}
    ensures all == (handed + mine) + now
  {
    assert was == now + mine;
  }

  lemma NobodyLeft()
    ensures Count(Holders, []) == Count(Uncounted, []) == 0 && Pending([]) == multiset{}
  {
  }

  class AsyncBackendWriter {
    const backend: S3.Bucket
    const capacity: nat
    var semaphore: nat
    var goroutines: seq<Goroutine>  // started and not yet done: what the wait group counts
    var startedPuts: nat
    var failedPuts: nat
    var successPuts: nat
    var closed: bool
    ghost var accepted: seq<Task>   // the tasks Put has accepted
    ghost var handed: seq<Task>     // the tasks the inner backend's Put has been called with

    ghost predicate Valid()
      reads this
    {
      && semaphore == Count(Holders, goroutines) <= capacity
      && startedPuts == successPuts + failedPuts + Count(Uncounted, goroutines)
      && startedPuts == |accepted|
      && multiset(accepted) == multiset(handed) + Pending(goroutines)
      && (closed ==> goroutines == [])
    }

    constructor (backend: S3.Bucket, capacity: nat)
      ensures Valid() && this.backend == backend && this.capacity == capacity
      ensures goroutines == [] && accepted == [] && handed == [] && !closed
    {
      this.backend, this.capacity := backend, capacity;
      semaphore, goroutines, startedPuts, failedPuts, successPuts, closed := 0, [], 0, 0, 0, false;
      accepted, handed := [], [];
    }

    /** Never blocks: without a free slot the put is rejected and nothing changes. */
    method Put(key: Bytes, outputID: Bytes, body: Bytes, size: int64) returns (ok: bool)
      requires Valid() && !closed
      modifies this`semaphore, this`goroutines, this`startedPuts, this`accepted
      ensures Valid() && (ok <==> old(semaphore) < capacity)
      ensures var t := Task(key, outputID, body, size);
        if ok then goroutines == old(goroutines) + [Goroutine(t, Running)] && accepted == old(accepted) + [t]
        else goroutines == old(goroutines) && accepted == old(accepted)
    {
      hide Count;
      hide Pending;
      if semaphore == capacity {
        return false;
      }
      semaphore := semaphore + 1;
      startedPuts := startedPuts + 1;
      var g := Goroutine(Task(key, outputID, body, size), Running);
      Appended(goroutines, g, Holders);
      Appended(goroutines, g, Uncounted);
      assert multiset(accepted + [g.task]) == multiset(accepted) + multiset{g.task};
      accepted := accepted + [g.task];
      goroutines := goroutines + [g];
      return true;
    }

    /** A goroutine calls the inner backend's Put. */
    method CallInner(i: nat, now: int64) returns (ok: bool, ghost stored: bool)
      requires Valid() && i < |goroutines| && goroutines[i].pc.Running?
      modifies this`goroutines, this`handed, backend`objects, backend`puts
      ensures Valid() && goroutines == old(goroutines)[i := old(goroutines)[i].(pc := Counting(ok))]
      ensures handed == old(handed) + [old(goroutines)[i].task] && StepsLeft(goroutines) < old(StepsLeft(goroutines))
      ensures var t := old(goroutines)[i].task;
        backend.puts == old(backend.puts) + [S3.PutCall(t.key, t.outputID, Some(t.body), t.size, now, stored, ok)]
      ensures (ok ==> stored) && (!stored ==> backend.objects == old(backend.objects))
      ensures stored ==>
        var t := old(goroutines)[i].task; var o := S3.ObjectFor(t.outputID, Some(t.body), t.size, now);
        o.Some? && backend.objects == old(backend.objects)[S3.ObjectKey(backend.prefix, t.key) := o.value]
    {
      hide S3.ObjectFor;
      hide Count;
      hide Pending;
      hide StepsLeft;
      hide S3.ObjectKey;
      var g := goroutines[i];
      ok, stored := backend.Put(g.task.key, g.task.outputID, Some(g.task.body), g.task.size, now);
      var next := g.(pc := Counting(ok));
      Replaced(goroutines, i, next, Holders);
      Replaced(goroutines, i, next, Uncounted);
      HandedOver(multiset(accepted), multiset(handed), Pending(goroutines), Pending(goroutines[i := next]), Mine(g));
      assert multiset(handed + [g.task]) == multiset(handed) + multiset{g.task};
      handed := handed + [g.task];
      goroutines := goroutines[i := next];
    }

    /** It counts the outcome. */
    method CountOutcome(i: nat)
      requires Valid() && i < |goroutines| && goroutines[i].pc.Counting?
      modifies this`goroutines, this`failedPuts, this`successPuts
      ensures Valid() && goroutines == old(goroutines)[i := old(goroutines)[i].(pc := Releasing)]
      ensures successPuts == old(successPuts) + (if old(goroutines)[i].pc.ok then 1 else 0)
      ensures failedPuts == old(failedPuts) + (if old(goroutines)[i].pc.ok then 0 else 1)
      ensures StepsLeft(goroutines) < old(StepsLeft(goroutines))
    {
      hide Count;
      hide Pending;
      hide StepsLeft;
      var g := goroutines[i];
      var next := g.(pc := Releasing);
      if g.pc.ok {
        successPuts := successPuts + 1;
      } else {
        failedPuts := failedPuts + 1;
      }
      Replaced(goroutines, i, next, Holders);
      Replaced(goroutines, i, next, Uncounted);
      assert Pending(goroutines[i := next]) == Pending(goroutines);
      goroutines := goroutines[i := next];
    }

    /** The first deferred call: its slot is free again. */
    method Release(i: nat)
      requires Valid() && i < |goroutines| && goroutines[i].pc.Releasing?
      modifies this`goroutines, this`semaphore
      ensures Valid() && goroutines == old(goroutines)[i := old(goroutines)[i].(pc := Finishing)]
      ensures semaphore == old(semaphore) - 1 && StepsLeft(goroutines) < old(StepsLeft(goroutines))
    {
      hide Count;
      hide Pending;
      hide StepsLeft;
      var next := goroutines[i].(pc := Finishing);
      Around(goroutines, i, Holders);
      Replaced(goroutines, i, next, Holders);
      Replaced(goroutines, i, next, Uncounted);
      assert Pending(goroutines[i := next]) == Pending(goroutines);
      semaphore := semaphore - 1;
      goroutines := goroutines[i := next];
    }

    /** The second: the wait group no longer waits for it. */
    method Done(i: nat)
      requires Valid() && i < |goroutines| && goroutines[i].pc.Finishing?
      modifies this`goroutines
      ensures Valid() && goroutines == old(goroutines)[..i] + old(goroutines)[i + 1..]
      ensures StepsLeft(goroutines) < old(StepsLeft(goroutines))
    {
      hide Count;
      hide Pending;
      hide StepsLeft;
      Around(goroutines, i, Holders);
      Around(goroutines, i, Uncounted);
      var rest := goroutines[..i] + goroutines[i + 1..];
      assert Pending(rest) == Pending(goroutines);
      goroutines := rest;
    }

    /** Waits for every goroutine, however their steps interleave, before it closes the inner backend. */
    method Close()
      requires Valid() && !closed
      modifies this`semaphore, this`goroutines, this`failedPuts, this`successPuts, this`handed, this`closed
      modifies backend`objects, backend`puts
      ensures Valid() && closed && goroutines == [] && semaphore == 0
      ensures startedPuts == successPuts + failedPuts
      ensures multiset(handed) == multiset(accepted) && old(handed) <= handed
    {
      hide S3.ObjectFor;
      hide S3.ObjectKey;
      hide Count;
      hide Pending;
      hide StepsLeft;
      while goroutines != []
        invariant Valid() && !closed && old(handed) <= handed
        decreases StepsLeft(goroutines)
      {
        var i: nat :| i < |goroutines|;
        match goroutines[i].pc {
          case Running =>
            var now: int64 := *;
            var ok;
            ghost var stored;
            ok, stored := CallInner(i, now);
          case Counting(_) => CountOutcome(i);
          case Releasing => Release(i);
          case Finishing => Done(i);
        }
      }
      closed := true;
      NobodyLeft();
    }
  }
}
