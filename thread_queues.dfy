/**
 * PromiseQueue and PromiseQueuePool of prompy/threadio/promise_queue.py.
 *
 * The worker thread is not modelled: RunOnce is one pass of the `_run` loop,
 * called with the clock value and with what the dequeued promise's starter
 * does when exec calls it.  start() enters `_run` at once, so a queue is
 * running from the moment it is started.
 */
module ThreadQueues {
  import opened Wrappers
  import opened Errors
  import opened PromiseSpec
  import opened Promises
  import opened Containers
  import opened QueueSpec
  import opened PoolSpec

  /** The class attribute `PromiseQueue.__thread_index`, shared by every queue. */
  class QueueCounter {
    var next: nat

    constructor ()
      ensures next == 0
    {
      next := 0;
    }
  }

  class PromiseQueue {
    const index: nat
    const maxIdle: real
    const hasOnStop: bool
    /** the threaded variant deletes a promise from the id map after its exec returned */
    const deleteAfterExec: bool
    var promises: map<PromiseId, Promise>
    var fifo: seq<PromiseId>
    var running: bool
    var started: bool
    var stopRequested: bool
    var idleStart: Option<real>
    var error: Option<Error>
    var stopNotices: nat
    /** the ids exec has been called on, in order */
    ghost var executed: seq<PromiseId>

    function Cfg(): QConfig {
      QConfig(maxIdle, hasOnStop, deleteAfterExec)
    }

    ghost function QSnap(): QState
      reads this
    {
      QState(fifo, promises.Keys, running, started, stopRequested, idleStart, error, stopNotices, executed)
    }

    /** Everything but the FIFO and the id map: liveness, stop request, idle start, error, notices. */
    ghost function Status(): QState
      reads this
    {
      QSnap().(fifo := [], ids := {})
    }

    /** A queue just built by `_add_queue`: started and running, with nothing queued and nothing done yet. */
    ghost predicate Pristine()
      reads this
    {
      promises == map[] && fifo == [] && Status() == QState([], {}, true, true, false, None, None, 0, [])
    }

    ghost predicate Valid()
      reads this
    {
      && NoticeInvariant(Cfg(), QSnap())
      && (!deleteAfterExec ==> FifoRegistered(QSnap()))
      && (forall k :: k in promises ==> promises[k].id == k)
    }

    constructor (counter: QueueCounter, start: bool, maxIdle: real, hasOnStop: bool, deleteAfterExec: bool)
      modifies counter
      ensures Valid()
      ensures index == old(counter.next) && counter.next == old(counter.next) + 1
      ensures this.maxIdle == maxIdle && this.hasOnStop == hasOnStop && this.deleteAfterExec == deleteAfterExec
      ensures promises == map[] && fifo == [] && executed == []
      ensures running == start && started == start
      ensures !stopRequested && idleStart == None && error == None && stopNotices == 0
    {
      index := counter.next;
      this.maxIdle := maxIdle;
      this.hasOnStop := hasOnStop;
      this.deleteAfterExec := deleteAfterExec;
      promises, fifo, executed := map[], [], [];
      running, started, stopRequested := false, false, false;
      idleStart, error, stopNotices := None, None, 0;
      new;
      counter.next := counter.next + 1;
      if start {
        Start();
      }
    }

    /** add_promise (threadio) / add (threaded): register in the id map, then append the id to the FIFO. */
    method AddPromise(p: Promise)
      requires Valid()
      modifies this`promises, this`fifo
      ensures Valid()
      ensures promises == Register(old(promises), p) && fifo == old(fifo) + [p.id]
    {
      promises := Register(promises, p);
      fifo := fifo + [p.id];
    }

    /** start(): the worker is started at most once; it enters `_run`. */
    method Start()
      requires NoticeInvariant(Cfg(), QSnap())
      modifies this`started, this`running, this`idleStart
      ensures NoticeInvariant(Cfg(), QSnap())
      ensures started
      ensures old(started) ==> running == old(running) && idleStart == old(idleStart)
      ensures !old(started) ==> running && idleStart == None
    {
      if !started {
        running, idleStart := true, None;
        started := true;
      }
    }

    /** stop(): set the stop event; the loop looks at it after its next item. */
    method Stop()
      modifies this`stopRequested
      ensures stopRequested
    {
      stopRequested := true;
    }

    /** cancel(id): mark a stored promise canceled; unknown ids are ignored. */
    method Cancel(cancelId: PromiseId)
      requires Valid()
      requires cancelId in promises ==> promises[cancelId].Valid()
      modifies if cancelId in promises then {promises[cancelId]} else {}
      ensures Valid()
      ensures cancelId in promises ==>
        var p := promises[cancelId];
        && p.canceled && p.Valid() && p.Snapshot() == old(p.Snapshot())
        && p.history == old(p.history) && p.completedAt == old(p.completedAt)
    {
      if cancelId in promises && !promises[cancelId].canceled {
        promises[cancelId].canceled := true;
      }
    }

    /** _stopped() */
    method NotifyStopped()
      modifies this`stopNotices
      ensures stopNotices == old(stopNotices) + (if hasOnStop then 1 else 0)
    {
      if hasOnStop {
        stopNotices := stopNotices + 1;
      }
    }

    /** The promises exec may be called on in the next pass. */
    function Front(): set<Promise>
      reads this
    {
      if fifo != [] && fifo[0] in promises then {promises[fifo[0]]} else {}
    }

    /** The `except queue.Empty` branch of a pass. */
    method PollEmpty(now: real)
      requires Valid() && running
      modifies this`idleStart, this`running, this`stopNotices
      ensures Valid()
      ensures QSnap() == EmptyPollSpec(Cfg(), old(QSnap()), now)
    {
      if IdleUnset(idleStart) {
        idleStart := Some(now);
      } else if now - idleStart.value > maxIdle {
        running := false;
        NotifyStopped();
      }
    }

    /** `current = self._queue.get(...)` and `idle_start = None`. */
    method Dequeue() returns (current: PromiseId)
      requires Valid() && fifo != []
      modifies this`fifo, this`idleStart
      ensures Valid()
      ensures current == old(fifo[0])
      ensures QSnap() == QueueSpec.Dequeue(old(QSnap()))
    {
      ghost var q0 := QSnap();
      current := fifo[0];
      fifo := fifo[1..];
      idleStart := None;
      assert !deleteAfterExec ==> FifoRegistered(QSnap()) by {
        forall i | 0 <= i < |fifo| && !deleteAfterExec ensures fifo[i] in promises {
          assert fifo[i] == q0.fifo[i + 1];
        }
      }
    }

    /** `if self._stop_event.is_set(): self._running = False`, and the loop's exit. */
    method CheckStop()
      requires Valid() && running
      modifies this`running, this`stopNotices
      ensures Valid()
      ensures QSnap() == AfterItem(Cfg(), old(QSnap()))
    {
      if stopRequested {
        running := false;
        NotifyStopped();
      }
    }

    /** The `except Exception as e` branch. */
    method FailWith(e: Error)
      requires Valid() && running
      modifies this`running, this`error, this`stopNotices
      ensures Valid()
      ensures QSnap() == Fail(Cfg(), old(QSnap()), e).q
    {
      running := false;
      error := Some(e);
      NotifyStopped();
    }

    /**
     * The dequeued promise: exec it unless it is canceled (the threaded variant
     * then deletes it from the id map), then check for a stop request.
     */
    method Consume(current: PromiseId, p: Promise, steps: seq<Step>)
      returns (raised: Option<Error>, ghost canceled: bool, ghost execRaised: Option<Error>)
      requires Valid() && running && current in promises && p == promises[current] && p.Valid()
      modifies this`promises, this`executed, this`running, this`error, this`stopNotices, p
      ensures Valid()
      ensures canceled == old(p.canceled)
      ensures QNext(QSnap(), raised) == ItemSpec(Cfg(), old(QSnap()), current, canceled, execRaised)
      ensures p.Snapshot() == (if canceled then old(p.Snapshot()) else ExecSpec(p.Cfg(), old(p.Snapshot()), steps).s)
      ensures !canceled ==> execRaised == ExecSpec(p.Cfg(), old(p.Snapshot()), steps).raised
    {
      var skip := p.canceled;
      raised, canceled, execRaised := None, skip, None;
      if !skip {
        executed := executed + [current];
        var r := p.Exec(steps);
        execRaised := r;
        if r.Some? {
          FailWith(r.value);
          return r, canceled, execRaised;
        }
        if deleteAfterExec {
          promises := promises - {current};
        }
      }
      CheckStop();
    }

    /**
     * One pass of `while self._running`, at clock value `now`; `steps` is what
     * the dequeued promise's starter does.  The result is the exception the
     * thread dies with, if any.
     */
    method RunOnce(now: real, steps: seq<Step>) returns (raised: Option<Error>)
      requires Valid() && running
      requires fifo != [] && fifo[0] in promises ==> promises[fifo[0]].Valid()
      modifies this, Front()
      ensures Valid()
      ensures old(fifo) == [] || old(fifo[0]) !in old(promises) ==>
        QNext(QSnap(), raised) == RunOnceSpec(Cfg(), old(QSnap()), false, None, now)
      ensures old(fifo) != [] && old(fifo[0]) in old(promises) ==>
        var p := old(promises[fifo[0]]);
        var canceled := old(p.canceled);
        var e := ExecSpec(p.Cfg(), old(p.Snapshot()), steps);
        && QNext(QSnap(), raised) == RunOnceSpec(Cfg(), old(QSnap()), canceled, e.raised, now)
        && p.Snapshot() == (if canceled then old(p.Snapshot()) else e.s)
    {
      if fifo == [] {
        PollEmpty(now);
        raised := None;
      } else {
        var current := Dequeue();
        if current !in promises {
          FailWith(KeyError(current));
          raised := Some(KeyError(current));
        } else {
          var p := promises[current];
          ghost var canceled, execRaised;
          raised, canceled, execRaised := Consume(current, p, steps);
        }
      }
    }
  }

  /** The running queues of qs, in their order. */
  ghost function RunningOf(qs: seq<PromiseQueue>): (r: seq<PromiseQueue>)
    reads qs
    ensures |r| <= |qs|
  {
    if qs == [] then [] else (if qs[0].running then [qs[0]] else []) + RunningOf(qs[1..])
  }

  /** The handle of each queue of qs: its index and liveness. */
  ghost function HandlesOf(qs: seq<PromiseQueue>): (h: seq<Handle>)
    reads qs
    ensures |h| == |qs| && forall j :: 0 <= j < |qs| ==> h[j] == Handle(qs[j].index, qs[j].running)
  {
    if qs == [] then [] else [Handle(qs[0].index, qs[0].running)] + HandlesOf(qs[1..])
  }

  /** The queues of qs whose handle in h is running: RunningOf on a snapshot of the liveness. */
  function Flagged(qs: seq<PromiseQueue>, h: seq<Handle>): seq<PromiseQueue>
    requires |qs| == |h|
  {
    if qs == [] then [] else (if h[0].running then [qs[0]] else []) + Flagged(qs[1..], h[1..])
  }

  lemma FlaggedStep(qs: seq<PromiseQueue>, h: seq<Handle>, i: nat)
    requires |qs| == |h| && i < |qs|
    ensures Flagged(qs[i..], h[i..]) == (if h[i].running then [qs[i]] else []) + Flagged(qs[i + 1..], h[i + 1..])
  {
    assert qs[i..][1..] == qs[i + 1..] && h[i..][1..] == h[i + 1..];
  }

  lemma {:induction false} RunningOfFlagged(qs: seq<PromiseQueue>)
    ensures RunningOf(qs) == Flagged(qs, HandlesOf(qs))
  {
    if qs != [] {
      RunningOfFlagged(qs[1..]);
      assert HandlesOf(qs)[1..] == HandlesOf(qs[1..]);
    }
  }

  /** RunningOf keeps exactly the running queues of the input. */
  lemma {:induction false} RunningOfMembers(qs: seq<PromiseQueue>)
    ensures forall q :: q in RunningOf(qs) <==> q in qs && q.running
  {
    if qs != [] {
      RunningOfMembers(qs[1..]);
    }
  }

  /** Keeping the running handles is taking the handles of the running queues. */
  lemma {:induction false} KeepRunningOf(qs: seq<PromiseQueue>)
    ensures KeepRunning(HandlesOf(qs)) == HandlesOf(RunningOf(qs))
  {
    if qs != [] {
      KeepRunningOf(qs[1..]);
      var h := HandlesOf(qs);
      assert h[1..] == HandlesOf(qs[1..]);
      var head := if qs[0].running then [qs[0]] else [];
      assert HandlesOf(head + RunningOf(qs[1..])) == HandlesOf(head) + HandlesOf(RunningOf(qs[1..]));
    }
  }

  /** The running queues of a pool keep their invariant and line up with the running handles. */
  lemma KeepRunningMatches(qs: seq<PromiseQueue>, h: seq<Handle>)
    requires |h| == |qs|
    requires forall i :: 0 <= i < |qs| ==> qs[i].Valid() && h[i] == Handle(qs[i].index, qs[i].running)
    ensures var live, hl := RunningOf(qs), KeepRunning(h);
      && |hl| == |live|
      && forall j :: 0 <= j < |live| ==> live[j].Valid() && hl[j] == Handle(live[j].index, live[j].running)
  {
    assert h == HandlesOf(qs);
    KeepRunningOf(qs);
    RunningOfMembers(qs);
  }

  /** The `get_nowait` loop of is_running() on the pool's queues, front first: the running ones, in order. */
  method FilterRunning(qs: seq<PromiseQueue>) returns (live: seq<PromiseQueue>)
    ensures live == RunningOf(qs)
  {
    ghost var h := HandlesOf(qs);
    live := [];
    var i := 0;
    while i < |qs|
      invariant 0 <= i <= |qs|
      invariant live + Flagged(qs[i..], h[i..]) == Flagged(qs, h)
    {
      FlaggedStep(qs, h, i);
      if qs[i].running {
        assert live + Flagged(qs[i..], h[i..]) == (live + [qs[i]]) + Flagged(qs[i + 1..], h[i + 1..]);
        live := live + [qs[i]];
      }
      i := i + 1;
    }
    assert qs[i..] == [] && h[i..] == [];
    RunningOfFlagged(qs);
  }

  class PromiseQueuePool {
    const poolSize: int
    const maxIdle: real
    /** false for prompy/threadio/promise_queue.py, true for prompy/threaded/promise_queue.py */
    const deleteAfterExec: bool
    const counter: QueueCounter
    var pool: seq<PromiseQueue>
    /** the index and liveness of each queue in the pool, front first */
    ghost var handles: seq<Handle>

    ghost predicate Valid()
      reads this, pool
    {
      && |pool| <= (if poolSize > 0 then poolSize else 0)
      && |handles| == |pool|
      && (forall i :: 0 <= i < |pool| ==> pool[i].Valid() && handles[i] == Handle(pool[i].index, pool[i].running))
    }

    /** PromiseQueuePool(pool_size, start, max_idle); start calls start() (threadio) or populate() (threaded). */
    constructor (counter: QueueCounter, poolSize: int, start: bool, maxIdle: real, deleteAfterExec: bool)
      modifies counter
      ensures Valid()
      ensures this.counter == counter && this.poolSize == poolSize && this.maxIdle == maxIdle
      ensures this.deleteAfterExec == deleteAfterExec
      ensures handles == (if start then FillSpec([], poolSize, old(counter.next)) else [])
    {
      this.counter := counter;
      this.poolSize := poolSize;
      this.maxIdle := maxIdle;
      this.deleteAfterExec := deleteAfterExec;
      pool, handles := [], [];
      new;
      if start {
        Start();
      }
    }

    /** _add_queue(): a new queue, started, with the pool's stop notification, at the back. */
    method AddQueue() returns (pq: PromiseQueue)
      requires Valid() && |pool| < poolSize
      modifies this`pool, this`handles, counter
      ensures Valid()
      ensures fresh(pq) && pool == old(pool) + [pq] && handles == old(handles) + [Handle(old(counter.next), true)]
      ensures pq.index == old(counter.next) && pq.Pristine() && pq.deleteAfterExec == deleteAfterExec
      ensures counter.next == old(counter.next) + 1
    {
      pq := new PromiseQueue(counter, true, maxIdle, true, deleteAfterExec);
      pool := pool + [pq];
      handles := handles + [Handle(pq.index, true)];
    }

    /** start() (threadio) / populate() (threaded): fill the pool with new queues up to pool_size. */
    method Start()
      requires Valid()
      modifies this`pool, this`handles, counter
      ensures Valid()
      ensures handles == FillSpec(old(handles), poolSize, old(counter.next))
      ensures counter.next == old(counter.next) + (if |old(pool)| < poolSize then poolSize - |old(pool)| else 0)
      ensures forall q :: q in old(pool) ==> q in pool
    {
      ghost var h0, n0 := handles, counter.next;
      while |pool| < poolSize
        invariant Valid()
        invariant |h0| <= |pool| && counter.next == n0 + (|pool| - |h0|)
        invariant handles == h0 + FreshRun(n0, |pool| - |h0|)
        invariant forall q :: q in old(pool) ==> q in pool
        decreases poolSize - |pool|
      {
        ghost var m := |pool| - |h0|;
        var pq := AddQueue();
        FreshRunSnoc(n0, m);
      }
    }

    /**
     * add_promise(p): top up, then rotate until a running queue takes p.  The
     * ghost result is the queue that took it; it ends at the back of the pool.
     */
    method AddPromise(p: Promise) returns (ghost target: PromiseQueue)
      requires Valid() && poolSize >= 1
      modifies this`pool, this`handles, counter, pool
      ensures Valid()
      ensures var d := AddSpec(old(handles), poolSize, old(counter.next));
        handles == d.pool && counter.next == d.next && target.index == d.target
      ensures pool != [] && pool[|pool| - 1] == target
      ensures target in old(pool) ==>
        && target.fifo == old(target.fifo) + [p.id] && target.promises == Register(old(target.promises), p)
        && target.Status() == old(target.Status())
      ensures target !in old(pool) ==>
        && fresh(target) && target.fifo == [p.id] && target.promises == Register(map[], p)
        && target.Status() == QState([], {}, true, true, false, None, None, 0, [])
      ensures forall q :: q in old(pool) && q != target ==>
        q.fifo == old(q.fifo) && q.promises == old(q.promises) && q.Status() == old(q.Status())
    {
      if |pool| < poolSize {
        var fresh0 := AddQueue();
      }
      target := RotateIn(p);
    }

    /** The `while True` loop of add_promise. */
    method RotateIn(p: Promise) returns (ghost target: PromiseQueue)
      requires Valid() && pool != []
      modifies this`pool, this`handles, counter, pool
      ensures Valid()
      ensures var d := Rotate(old(handles), old(counter.next));
        handles == d.pool && counter.next == d.next && target.index == d.target
      ensures pool != [] && pool[|pool| - 1] == target
      ensures target in old(pool) ==>
        && target.fifo == old(target.fifo) + [p.id] && target.promises == Register(old(target.promises), p)
        && target.Status() == old(target.Status())
      ensures target !in old(pool) ==>
        && fresh(target) && target.fifo == [p.id] && target.promises == Register(map[], p)
        && target.Status() == QState([], {}, true, true, false, None, None, 0, [])
      ensures forall q :: q in old(pool) && q != target ==>
        q.fifo == old(q.fifo) && q.promises == old(q.promises) && q.Status() == old(q.Status())
    {
      SkipDead();
      RotateLiveStep(handles, counter.next);
      target := GiveFront(p);
    }

    /** The dead queues at the front are replaced, one at a time, until a running one is at the front. */
    method SkipDead()
      requires Valid() && pool != []
      modifies this`pool, this`handles, counter
      ensures Valid() && pool != [] && pool[0].running
      ensures Rotate(handles, counter.next) == Rotate(old(handles), old(counter.next))
      ensures forall i :: 0 <= i < |pool| ==> pool[i] in old(pool) || fresh(pool[i])
      ensures forall i :: 0 <= i < |pool| && fresh(pool[i]) ==> pool[i].Pristine()
    {
      ghost var h1, n1 := handles, counter.next;
      while !pool[0].running
        invariant Valid() && pool != [] && |pool| == |h1|
        invariant Rotate(handles, counter.next) == Rotate(h1, n1)
        invariant forall i :: 0 <= i < |pool| ==> pool[i] in old(pool) || fresh(pool[i])
        invariant forall i :: 0 <= i < |pool| && fresh(pool[i]) ==> pool[i].Pristine()
        decreases Dead(handles)
      {
        ghost var h, n, p0 := handles, counter.next, pool;
        assert !h[0].running;
        DropDead();
        RotateDeadStep(h, n);
        DeadAppend(h[1..], [Handle(n, true)]);
        assert handles == h[1..] + [Handle(n, true)] && counter.next == n + 1;
        assert forall i :: 0 <= i < |pool| - 1 ==> pool[i] == p0[i + 1];
      }
    }

    /** A queue at the front that is not running: drop it and put a new one at the back. */
    method DropDead()
      requires Valid() && pool != [] && !pool[0].running
      modifies this`pool, this`handles, counter
      ensures Valid() && |pool| == |old(pool)|
      ensures var last := pool[|pool| - 1];
        pool == old(pool[1..]) + [last] && fresh(last) && last.Pristine()
      ensures handles == old(handles[1..]) + [Handle(old(counter.next), true)]
      ensures counter.next == old(counter.next) + 1
    {
      pool, handles := pool[1..], handles[1..];
      var pq := AddQueue();
    }

    /** A running queue at the front takes the promise and goes to the back. */
    method GiveFront(p: Promise) returns (ghost target: PromiseQueue)
      requires Valid() && pool != [] && pool[0].running
      modifies this`pool, this`handles, pool[0]
      ensures Valid() && target == old(pool[0])
      ensures pool == old(pool[1..]) + [target] && handles == old(handles[1..]) + [old(handles[0])]
      ensures target.fifo == old(target.fifo) + [p.id] && target.promises == Register(old(target.promises), p)
      ensures target.Status() == old(target.Status())
    {
      var pq := pool[0];
      pq.AddPromise(p);
      pool, handles := pool[1..] + [pq], handles[1..] + [handles[0]];
      target := pq;
    }

    /** is_running(): drain the pool, put back only the running queues, report whether there were any. */
    method IsRunning() returns (r: bool)
      requires Valid()
      modifies this`pool, this`handles
      ensures Valid()
      ensures pool == RunningOf(old(pool)) && handles == KeepRunning(old(handles))
      ensures r <==> pool != []
      ensures r <==> exists i :: 0 <= i < |old(pool)| && old(pool[i].running)
    {
      ghost var all, h0 := pool, handles;
      KeepRunningNonEmpty(h0);
      var live := DrainRunning();
      r := |live| > 0;
      PutBack(live);
      handles := KeepRunning(h0);
      KeepRunningMatches(all, h0);
    }

    /** The first loop of is_running(): every queue is taken out, the running ones are kept in order. */
    method DrainRunning() returns (live: seq<PromiseQueue>)
      modifies this`pool
      ensures pool == [] && live == RunningOf(old(pool))
    {
      live := FilterRunning(pool);
      pool := [];
    }

    /** The second loop of is_running(): put the kept queues back, in order. */
    method PutBack(live: seq<PromiseQueue>)
      requires pool == []
      modifies this`pool
      ensures pool == live
    {
      var k := 0;
      while k < |live|
        invariant 0 <= k <= |live| && pool == live[..k]
      {
        pool := pool + [live[k]];
        k := k + 1;
      }
    }

    /** stop(): the stop event of every queue in the pool is set and the pool is emptied. */
    method Stop()
      requires Valid()
      modifies this`pool, this`handles, pool`stopRequested
      ensures Valid() && pool == []
      ensures forall q :: q in old(pool) ==>
        q.QSnap() == old(q.QSnap()).(stopRequested := true) && q.promises == old(q.promises)
    {
      while pool != []
        invariant forall i :: 0 <= i < |old(pool)| && old(pool)[i] !in pool ==> old(pool)[i].stopRequested
        invariant pool == old(pool)[|old(pool)| - |pool|..]
        decreases |pool|
      {
        var pq := pool[0];
        pq.Stop();
        pool := pool[1..];
      }
      handles := [];
    }
  }
}
