/**
 * The containers a promise is handed to with `add_promise`: the id → promise
 * dict of prompy/container.py, or the thread-queue pool of
 * prompy/threadio/promise_queue.py (also what PooledCaller.add_promise of
 * prompy/threadio/pooled_caller.py forwards to).
 */
module Receivers {
  import opened Wrappers
  import opened Errors
  import opened Promises
  import opened Containers
  import opened ThreadQueues
  import opened QueueSpec
  import opened PoolSpec

  datatype Receiver = DictContainer(dict: PromiseContainer) | QueuePool(pool: PromiseQueuePool)

  /** What add_promise needs of the receiver: a well-formed pool of at least one queue. */
  ghost predicate Ready(r: Receiver)
    reads if r.QueuePool? then {r.pool} else {}, if r.QueuePool? then r.pool.pool else []
  {
    r.QueuePool? ==> r.pool.Valid() && r.pool.poolSize >= 1
  }

  /** A pool's state as a value: its queues, handles and counter, and each queue's FIFO, id map and status. */
  datatype PoolState = PoolState(
    queues: seq<PromiseQueue>, handles: seq<Handle>, next: nat,
    fifos: map<PromiseQueue, seq<PromiseId>>, ids: map<PromiseQueue, map<PromiseId, Promise>>,
    status: map<PromiseQueue, QState>)

  ghost function StateOf(pp: PromiseQueuePool): (s: PoolState)
    reads pp, pp.counter, pp.pool
    ensures s.queues == pp.pool && s.handles == pp.handles && s.next == pp.counter.next
    ensures forall q :: q in pp.pool ==>
      q in s.fifos && q in s.ids && q in s.status
      && s.fifos[q] == q.fifo && s.ids[q] == q.promises && s.status[q] == q.Status()
  {
    PoolState(pp.pool, pp.handles, pp.counter.next,
      map q | q in pp.pool :: q.fifo, map q | q in pp.pool :: q.promises, map q | q in pp.pool :: q.Status())
  }

  /** A step that touches none of the pool's objects leaves its state as it was. */
  twostate lemma StateKept(pp: PromiseQueuePool)
    requires unchanged(pp, pp.counter) && unchanged(pp.pool)
    ensures StateOf(pp) == old(StateOf(pp))
  {
  }

  /**
   * What PromiseQueuePool.add_promise(p) did to a pool that was in state b:
   * the handles follow AddSpec, the queue that took p is at the back and
   * registered p, and every other old queue kept its FIFO, id map and status.
   */
  ghost predicate PoolTook(pp: PromiseQueuePool, b: PoolState, p: Promise, target: PromiseQueue)
    requires forall q :: q in b.queues ==> q in b.fifos && q in b.ids && q in b.status
    reads pp, pp.counter, pp.pool, b.queues
  {
    && pp.Valid() && pp.poolSize >= 1
    && (var d := AddSpec(b.handles, pp.poolSize, b.next);
        pp.handles == d.pool && pp.counter.next == d.next && target.index == d.target)
    && pp.pool != [] && pp.pool[|pp.pool| - 1] == target
    && (target in b.queues ==>
        && target.fifo == b.fifos[target] + [p.id] && target.promises == Register(b.ids[target], p)
        && target.Status() == b.status[target])
    && (target !in b.queues ==>
        && target.fifo == [p.id] && target.promises == Register(map[], p)
        && target.Status() == QState([], {}, true, true, false, None, None, 0, []))
    && (forall q :: q in b.queues && q != target ==>
        q.fifo == b.fifos[q] && q.promises == b.ids[q] && q.Status() == b.status[q])
  }

  /** The objects add_promise may change. */
  ghost function Footprint(r: Receiver): set<object>
    reads if r.QueuePool? then {r.pool} else {}
  {
    if r.DictContainer? then {r.dict} else {r.pool, r.pool.counter} + set q | q in r.pool.pool :: q as object
  }

  /**
   * receiver.add_promise(p).  For a pool the ghost result is the queue that
   * took p.  The objects in `keep` lie outside the receiver and stay as they
   * were.
   */
  method AddTo(r: Receiver, p: Promise, ghost keep: set<object>) returns (ghost target: Option<PromiseQueue>)
    requires Ready(r) && keep !! Footprint(r)
    modifies Footprint(r)
    ensures r.DictContainer? ==> r.dict.promises == Register(old(r.dict.promises), p) && r.dict.Contains(p)
    ensures r.QueuePool? ==> target.Some? && PoolTook(r.pool, old(StateOf(r.pool)), p, target.value)
    ensures r.QueuePool? && target.Some? && target.value !in old(r.pool.pool) ==> fresh(target.value)
    ensures unchanged(p) && unchanged(keep)
  {
    if r.DictContainer? {
      r.dict.AddPromise(p);
      target := None;
    } else {
      var t := AddToPool(r.pool, p, keep);
      target := Some(t);
    }
  }

  /** PromiseQueuePool.add_promise(p), stated as PoolTook. */
  method AddToPool(pp: PromiseQueuePool, p: Promise, ghost keep: set<object>) returns (ghost target: PromiseQueue)
    requires pp.Valid() && pp.poolSize >= 1 && keep !! Footprint(QueuePool(pp))
    modifies Footprint(QueuePool(pp))
    ensures PoolTook(pp, old(StateOf(pp)), p, target)
    ensures target !in old(pp.pool) ==> fresh(target)
    ensures unchanged(p) && unchanged(keep)
  {
    ghost var b := StateOf(pp);
    target := pp.AddPromise(p);
    assert forall q :: q in b.queues && q != target ==>
      q.fifo == b.fifos[q] && q.promises == b.ids[q] && q.Status() == b.status[q];
  }

  /**
   * container_wrap: the decorated method produced `p`; the wrapper adds it to
   * the receiver and returns exactly that promise.
   */
  method ContainerWrap(receiver: Receiver, p: Promise) returns (r: Promise, ghost target: Option<PromiseQueue>)
    requires Ready(receiver)
    modifies Footprint(receiver)
    ensures r == p
    ensures receiver.DictContainer? ==>
      receiver.dict.promises == Register(old(receiver.dict.promises), p) && receiver.dict.Contains(r)
    ensures receiver.QueuePool? ==> target.Some? && PoolTook(receiver.pool, old(StateOf(receiver.pool)), p, target.value)
    ensures receiver.QueuePool? && target.Some? && target.value !in old(receiver.pool.pool) ==> fresh(target.value)
  {
    target := AddTo(receiver, p, {});
    r := p;
  }
}
