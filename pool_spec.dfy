/**
 * The queue rotation of PromiseQueuePool (prompy/threadio/promise_queue.py
 * and prompy/threaded/promise_queue.py) on handles: each queue in the pool is
 * seen as its index and whether it is running.  A queue the pool creates is
 * started at once, so it is running.
 */
module PoolSpec {

  datatype Handle = Handle(index: nat, running: bool)

  /** The pool after a dispatch, the index of the queue that got the promise, and the next queue index. */
  datatype Dispatch = Dispatch(pool: seq<Handle>, target: nat, next: nat)

  /** Queues created one after the other from index `next`, all running. */
  function FreshRun(next: nat, k: nat): (r: seq<Handle>)
    ensures |r| == k
    ensures forall i :: 0 <= i < k ==> r[i] == Handle(next + i, true)
    decreases k
  {
    if k == 0 then [] else [Handle(next, true)] + FreshRun(next + 1, k - 1)
  }

  /** One more fresh queue goes at the back of a run. */
  lemma {:induction false} FreshRunSnoc(next: nat, k: nat)
    ensures FreshRun(next, k + 1) == FreshRun(next, k) + [Handle(next + k, true)]
    decreases k
  {
    if k > 0 {
      FreshRunSnoc(next + 1, k - 1);
    }
  }

  /** How many queues at the front are not running. */
  function DeadPrefix(pool: seq<Handle>): (k: nat)
    ensures k <= |pool|
    ensures forall i :: 0 <= i < k ==> !pool[i].running
    ensures k < |pool| ==> pool[k].running
  {
    if pool == [] || pool[0].running then 0 else 1 + DeadPrefix(pool[1..])
  }

  function Dead(pool: seq<Handle>): nat {
    if pool == [] then 0 else (if pool[0].running then 0 else 1) + Dead(pool[1..])
  }

  lemma {:induction false} DeadAppend(a: seq<Handle>, b: seq<Handle>)
    ensures Dead(a + b) == Dead(a) + Dead(b)
  {
    if a == [] {
      assert a + b == b;
    } else {
      assert (a + b)[1..] == a[1..] + b;
      DeadAppend(a[1..], b);
    }
  }

  /**
   * The `while True` loop of add_promise: take the front queue; a queue that is
   * not running is dropped and a fresh one is put at the back; the first
   * running queue gets the promise and goes back at the end.
   */
  function Rotate(pool: seq<Handle>, next: nat): (d: Dispatch)
    requires pool != []
    decreases Dead(pool)
  {
    var pq := pool[0];
    if pq.running then Dispatch(pool[1..] + [pq], pq.index, next)
    else
      DeadAppend(pool[1..], [Handle(next, true)]);
      Rotate(pool[1..] + [Handle(next, true)], next + 1)
  }

  /** A queue at the front that is not running is replaced at the back by a new running one, and rotation goes on. */
  lemma RotateDeadStep(pool: seq<Handle>, next: nat)
    requires pool != [] && !pool[0].running
    ensures Rotate(pool, next) == Rotate(pool[1..] + [Handle(next, true)], next + 1)
  {
  }

  /** A running queue at the front takes the promise and goes to the back. */
  lemma RotateLiveStep(pool: seq<Handle>, next: nat)
    requires pool != [] && pool[0].running
    ensures Rotate(pool, next) == Dispatch(pool[1..] + [pool[0]], pool[0].index, next)
  {
  }

  /** KeepRunning looks at one queue at a time, front first. */
  lemma KeepRunningStep(pool: seq<Handle>, i: nat)
    requires i < |pool|
    ensures KeepRunning(pool[i..]) == (if pool[i].running then [pool[i]] else []) + KeepRunning(pool[i + 1..])
  {
    assert pool[i..][1..] == pool[i + 1..];
  }

  /** add_promise: top the pool up by one queue when it holds fewer than pool_size, then rotate. */
  function AddSpec(pool: seq<Handle>, poolSize: int, next: nat): Dispatch
    requires pool != [] || poolSize >= 1
  {
    if |pool| < poolSize then Rotate(pool + [Handle(next, true)], next + 1)
    else Rotate(pool, next)
  }

  /** start()/populate(): add queues until the pool holds pool_size. */
  function FillSpec(pool: seq<Handle>, poolSize: int, next: nat): (r: seq<Handle>)
    ensures |r| == if |pool| < poolSize then poolSize else |pool|
  {
    if |pool| < poolSize then pool + FreshRun(next, poolSize - |pool|) else pool
  }

  /** is_running: drain the pool, then put back, in order, the queues that are running. */
  function KeepRunning(pool: seq<Handle>): (r: seq<Handle>)
    ensures |r| <= |pool|
    ensures forall i :: 0 <= i < |r| ==> r[i].running
  {
    if pool == [] then []
    else (if pool[0].running then [pool[0]] else []) + KeepRunning(pool[1..])
  }

  // ---------------------------------------------------------------------

  /**
   * The shape of a rotation: with k dead queues at the front, those k are
   * dropped, k fresh queues are added, and the first running queue — an old one
   * if any, else the first fresh one — moves to the back holding the promise.
   */
  function Rotated(pool: seq<Handle>, next: nat): Dispatch
    requires pool != []
  {
    var k := DeadPrefix(pool);
    if k < |pool| then Dispatch(pool[k + 1..] + FreshRun(next, k) + [pool[k]], pool[k].index, next + k)
    else Dispatch(FreshRun(next + 1, k - 1) + [Handle(next, true)], next, next + k)
  }

  lemma {:induction false} RotateShape(pool: seq<Handle>, next: nat)
    requires pool != []
    ensures Rotate(pool, next) == Rotated(pool, next)
    decreases Dead(pool)
  {
    if !pool[0].running {
      var p1 := pool[1..] + [Handle(next, true)];
      DeadAppend(pool[1..], [Handle(next, true)]);
      assert Rotate(pool, next) == Rotate(p1, next + 1);
      RotateShape(p1, next + 1);
      if DeadPrefix(pool) < |pool| {
        RotatedLive(pool, next, DeadPrefix(pool));
      } else {
        RotatedDead(pool, next, DeadPrefix(pool));
      }
    }
  }

  /** Dropping a dead front queue for a fresh one at the back: an old running queue still gets the promise. */
  lemma RotatedLive(pool: seq<Handle>, next: nat, k: nat)
    requires pool != [] && !pool[0].running && k == DeadPrefix(pool) && k < |pool|
    ensures Rotated(pool[1..] + [Handle(next, true)], next + 1) == Rotated(pool, next)
  {
    var h := Handle(next, true);
    var p1 := pool[1..] + [h];
    var j := k - 1;
    assert DeadPrefix(p1) == j by {
      DeadPrefixOfPrefix(pool[1..], [h]);
    }
    assert p1[j] == pool[k];
    assert p1[j + 1..] == pool[k + 1..] + [h];
    assert FreshRun(next, k) == [h] + FreshRun(next + 1, j);
    SnocRegroup(pool[k + 1..], h, FreshRun(next + 1, j), pool[k]);
  }

  lemma SnocRegroup(a: seq<Handle>, h: Handle, f: seq<Handle>, x: Handle)
    ensures (a + [h]) + f + [x] == a + ([h] + f) + [x]
  {
  }

  /** ... and with every queue dead, the first fresh queue gets it. */
  lemma RotatedDead(pool: seq<Handle>, next: nat, k: nat)
    requires pool != [] && !pool[0].running && k == DeadPrefix(pool) && k == |pool|
    ensures Rotated(pool[1..] + [Handle(next, true)], next + 1) == Rotated(pool, next)
  {
    var p1 := pool[1..] + [Handle(next, true)];
    assert DeadPrefix(p1) == k - 1 by {
      DeadPrefixAllDead(pool[1..], Handle(next, true));
    }
    assert p1[k - 1] == Handle(next, true);
    assert p1[k..] == [];
  }

  lemma {:induction false} DeadPrefixOfPrefix(a: seq<Handle>, b: seq<Handle>)
    requires DeadPrefix(a) < |a|
    ensures DeadPrefix(a + b) == DeadPrefix(a)
  {
    if a[0].running {
      assert (a + b)[0] == a[0];
    } else {
      assert (a + b)[1..] == a[1..] + b;
      DeadPrefixOfPrefix(a[1..], b);
    }
  }

  lemma {:induction false} DeadPrefixAllDead(a: seq<Handle>, h: Handle)
    requires DeadPrefix(a) == |a| && h.running
    ensures DeadPrefix(a + [h]) == |a|
  {
    if a == [] {
      assert a + [h] == [h];
    } else {
      assert (a + [h])[1..] == a[1..] + [h];
      DeadPrefixAllDead(a[1..], h);
    }
  }

  /** A rotation keeps the pool's size and leaves the promise's queue, running, at the back. */
  lemma RotateEnds(pool: seq<Handle>, next: nat)
    requires pool != []
    ensures var d := Rotate(pool, next);
      |d.pool| == |pool| && d.pool[|d.pool| - 1] == Handle(d.target, true) && d.next == next + DeadPrefix(pool)
  {
    RotateShape(pool, next);
  }

  /** The pool never exceeds pool_size, and it grows by one exactly when it was below it. */
  lemma AddKeepsCapacity(pool: seq<Handle>, poolSize: int, next: nat)
    requires poolSize >= 1 && |pool| <= poolSize
    ensures var d := AddSpec(pool, poolSize, next);
      |d.pool| == (if |pool| < poolSize then |pool| + 1 else |pool|) && |d.pool| <= poolSize
  {
    if |pool| < poolSize {
      RotateEnds(pool + [Handle(next, true)], next + 1);
    } else {
      RotateEnds(pool, next);
    }
  }

  /** The queue that gets the promise is running and ends at the back of the pool. */
  lemma AddTargetsRunning(pool: seq<Handle>, poolSize: int, next: nat)
    requires pool != [] || poolSize >= 1
    ensures var d := AddSpec(pool, poolSize, next);
      d.pool != [] && d.pool[|d.pool| - 1] == Handle(d.target, true)
  {
    if |pool| < poolSize {
      RotateEnds(pool + [Handle(next, true)], next + 1);
    } else {
      RotateEnds(pool, next);
    }
  }

  /** When the front queue is running it gets the promise and only moves to the back. */
  lemma AddToRunningFront(pool: seq<Handle>, poolSize: int, next: nat)
    requires |pool| >= poolSize && pool != [] && pool[0].running
    ensures AddSpec(pool, poolSize, next) == Dispatch(pool[1..] + [pool[0]], pool[0].index, next)
  {
  }

  /** is_running is true iff some queue is running. */
  lemma {:induction false} KeepRunningNonEmpty(pool: seq<Handle>)
    ensures KeepRunning(pool) != [] <==> exists i :: 0 <= i < |pool| && pool[i].running
  {
    if pool != [] {
      KeepRunningNonEmpty(pool[1..]);
      if !pool[0].running && exists i :: 0 <= i < |pool| && pool[i].running {
        var i :| 0 <= i < |pool| && pool[i].running;
        assert pool[1..][i - 1] == pool[i];
      }
    }
  }

  /** What stays in the pool is exactly the running queues. */
  lemma {:induction false} KeepRunningMembers(pool: seq<Handle>)
    ensures forall h :: h in KeepRunning(pool) <==> h in pool && h.running
  {
    if pool != [] {
      KeepRunningMembers(pool[1..]);
      assert pool == [pool[0]] + pool[1..];
    }
  }

  /** ... in their original order: a second is_running changes nothing. */
  lemma {:induction false} KeepRunningIdempotent(pool: seq<Handle>)
    ensures KeepRunning(KeepRunning(pool)) == KeepRunning(pool)
  {
    if pool != [] {
      KeepRunningIdempotent(pool[1..]);
      var r := KeepRunning(pool[1..]);
      if pool[0].running {
        assert ([pool[0]] + r)[1..] == r;
      } else {
        assert KeepRunning(pool) == r;
      }
    }
  }

  /** start() on an empty pool creates pool_size running queues with consecutive indices. */
  lemma FillFromEmpty(poolSize: int, next: nat)
    requires poolSize >= 0
    ensures FillSpec([], poolSize, next) == FreshRun(next, poolSize)
  {
    if poolSize > 0 {
      assert [] + FreshRun(next, poolSize) == FreshRun(next, poolSize);
    }
  }
}
