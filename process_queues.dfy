/**
 * ProcessPromiseQueue and PromiseProcessPool of
 * prompy/processio/process_promise.py (prompy/processio/process_containers.py
 * holds an identical copy of both).
 *
 * Each queue runs in its own process in the source; here a queue is one
 * object and RunOnce is one pass of its `run` loop.  Processes are objects
 * that remember whether they were started; terminating them is not modelled.
 */
module ProcessQueues {
  import opened Wrappers
  import opened Errors
  import opened PromiseSpec
  import opened ProcessPromiseSpec
  import opened ProcessPromises
  import opened QueueSpec
  import opened ProcessQueueSpec

  /** The multiprocessing error queue shared by a pool's queues. */
  class ErrorChannel {
    var items: seq<Error>

    constructor ()
      ensures items == []
    {
      items := [];
    }

    method Put(e: Error)
      modifies this
      ensures items == old(items) + [e]
    {
      items := items + [e];
    }

    /** get_errors(): take the errors out one by one while the channel is not empty. */
    method Drain() returns (got: seq<Error>)
      modifies this
      ensures got == old(items) && items == []
    {
      got := [];
      while |items| > 0
        invariant got + items == old(items)
        decreases |items|
      {
        got := got + [items[0]];
        items := items[1..];
      }
    }
  }

  /** The class attribute `ProcessPromiseQueue.__queue_index`: nothing ever assigns it. */
  class QueueIndex {
    var value: nat

    constructor ()
      ensures value == 0
    {
      value := 0;
    }
  }

  /** What a multiprocessing.Process contributes: it can be started once. */
  class Process {
    /** the position of the process in its pool */
    ghost const slot: nat
    var started: bool

    constructor (ghost slot: nat)
      ensures this.slot == slot && !started
    {
      this.slot := slot;
      started := false;
    }

    method Start() returns (raised: Option<Error>)
      modifies this
      ensures started
      ensures raised == (if old(started) then Some(AssertionError("cannot start a process twice")) else None)
    {
      if started {
        return Some(AssertionError("cannot start a process twice"));
      }
      started := true;
      raised := None;
    }
  }

  /** The options a queue is built with (on_idle is a flag; its answers are inputs of RunOnce). */
  datatype QueueOptions = QueueOptions(maxIdle: real, idleCheck: bool, hasOnIdle: bool, raiseAgain: bool)

  class ProcessPromiseQueue {
    /** `_index`, read from the class attribute */
    const index: nat
    /** the instance attribute that `self.__queue_index += 1` creates */
    const ownQueueIndex: nat
    const options: QueueOptions
    const errorList: ErrorChannel?
    /** the position of the queue in its pool */
    ghost const slot: nat
    var fifo: seq<ProcessPromise>
    var running: bool
    var idleStart: Option<real>
    var errors: seq<Error>
    var idleQueries: nat
    ghost var executed: seq<ProcessPromise>

    function Cfg(): PQConfig {
      PQConfig(options.maxIdle, options.idleCheck, options.hasOnIdle, options.raiseAgain, errorList != null)
    }

    ghost function Snap(): PQState<ProcessPromise>
      reads this
    {
      PQState(fifo, running, idleStart, errors, idleQueries, executed)
    }

    constructor (classIndex: QueueIndex, options: QueueOptions, errorList: ErrorChannel?, ghost slot: nat)
      ensures index == classIndex.value && ownQueueIndex == classIndex.value + 1
      ensures this.options == options && this.errorList == errorList && this.slot == slot
      ensures Snap() == PQState([], false, None, [], 0, [])
    {
      index := classIndex.value;
      ownQueueIndex := classIndex.value + 1;
      this.options := options;
      this.errorList := errorList;
      this.slot := slot;
      fifo, running, idleStart, errors, idleQueries, executed := [], false, None, [], 0, [];
    }

    /** The `id` property. */
    function Id(): (r: nat)
      ensures r == index
    {
      index
    }

    /** num_tasks: what is still queued. */
    function NumTasks(): (r: nat)
      reads this
      ensures r == |Snap().fifo|
    {
      |fifo|
    }

    method AddPromise(p: ProcessPromise)
      modifies this`fifo
      ensures fifo == old(fifo) + [p]
    {
      fifo := fifo + [p];
    }

    /** The start of run(): `self._running = True`, idle_start is None. */
    method Begin()
      modifies this`running, this`idleStart
      ensures running && idleStart == None
    {
      running, idleStart := true, None;
    }

    /** The objects a pass may change besides the queue. */
    function PassFrame(): set<object>
      reads this
    {
      (if fifo != [] then {fifo[0]} else {}) + (if errorList != null then {errorList} else {})
    }

    /** The `except Exception as e` branch. */
    method Fail(e: Error) returns (raised: Option<Error>)
      modifies this`errors, this`running, errorList
      ensures Snap() == PQFail(Cfg(), old(Snap()), e).q
      ensures raised == PQFail(Cfg(), old(Snap()), e).raised
      ensures errorList != null ==> errorList.items == old(errorList.items) + [e]
    {
      errors := errors + [e];
      if errorList != null {
        errorList.Put(e);
      }
      raised := None;
      if options.raiseAgain {
        running := false;
        raised := Some(e);
      }
    }

    /** The `except Empty` branch, with `stopAnswer` standing for what on_idle returns. */
    method PollEmpty(now: real, stopAnswer: bool)
      modifies this`idleStart, this`running, this`idleQueries
      ensures Snap() == PQEmptyPoll(Cfg(), old(Snap()), now, stopAnswer)
    {
      if !options.idleCheck {
        return;
      }
      if IdleUnset(idleStart) {
        idleStart := Some(now);
      } else if now - idleStart.value > options.maxIdle {
        if options.hasOnIdle {
          idleQueries := idleQueries + 1;
          if stopAnswer {
            running := false;
          }
        } else {
          running := false;
        }
      }
    }

    /**
     * One pass of the `while True` loop at clock value `now`: `steps` is what the
     * dequeued promise's starter does and `stopAnswer` what on_idle returns.
     */
    method RunOnce(now: real, steps: seq<Step>, stopAnswer: bool) returns (raised: Option<Error>)
      requires running
      requires fifo != [] ==> fifo[0].Valid()
      modifies this, PassFrame()
      ensures old(fifo) == [] ==>
        PQNext(Snap(), None, raised) == PQRunOnceSpec(Cfg(), old(Snap()), None, now, stopAnswer)
      ensures old(fifo) != [] ==>
        var p := old(fifo[0]);
        var e := PExecSpec(p.Cfg(), old(p.Snapshot()), steps);
        var n := PQRunOnceSpec(Cfg(), old(Snap()), e.raised, now, stopAnswer);
        && Snap() == n.q && raised == n.raised
        && p.Snapshot() == e.s && p.completedAt == Some(now)
        && (errorList != null ==> errorList.items == old(errorList.items) + (if n.reported.Some? then [n.reported.value] else []))
    {
      raised := None;
      if fifo == [] {
        PollEmpty(now, stopAnswer);
        return;
      }
      var current := fifo[0];
      fifo := fifo[1..];
      executed := executed + [current];
      var r := current.Exec(steps, now);
      if r.Some? {
        raised := Fail(r.value);
      } else {
        idleStart := None;
      }
    }
  }

  /** `_ProcessingQueue(process_id, process, queue)` */
  datatype ProcessingQueue = ProcessingQueue(processId: nat, process: Process, queue: ProcessPromiseQueue)

  function QueuesOf(ps: seq<ProcessingQueue>): (qs: seq<ProcessPromiseQueue>)
    ensures |qs| == |ps| && forall i :: 0 <= i < |ps| ==> qs[i] == ps[i].queue
  {
    if ps == [] then [] else [ps[0].queue] + QueuesOf(ps[1..])
  }

  function ProcessesOf(ps: seq<ProcessingQueue>): (rs: seq<Process>)
    ensures |rs| == |ps| && forall i :: 0 <= i < |ps| ==> rs[i] == ps[i].process
  {
    if ps == [] then [] else [ps[0].process] + ProcessesOf(ps[1..])
  }

  /** The sum of the queued counts. */
  function TotalTasks(qs: seq<ProcessPromiseQueue>): nat
    reads qs
  {
    if qs == [] then 0 else |qs[0].fifo| + TotalTasks(qs[1..])
  }

  /** The cursor step of add_promise: advance, and wrap to 0 at pool_size. */
  function NextCursor(c: int, n: int): int {
    if c + 1 >= n then 0 else c + 1
  }

  lemma {:induction false} MulAtLeast(d: nat, n: nat)
    requires d >= 1
    ensures d * n >= n
  {
    if d > 1 {
      MulAtLeast(d - 1, n);
      assert d * n == (d - 1) * n + n;
    }
  }

  /** The remainder is the r of any a == q * n + r with 0 <= r < n. */
  lemma ModUnique(a: int, n: int, q: int, r: int)
    requires n >= 1 && a == q * n + r && 0 <= r < n
    ensures a % n == r
  {
    var q', r' := a / n, a % n;
    assert a == q' * n + r';
    if q > q' {
      MulAtLeast(q - q', n);
    } else if q < q' {
      MulAtLeast(q' - q, n);
    }
  }

  /** The cursor after k calls of add_promise on a fresh pool of n queues. */
  function CursorAfter(k: nat, n: int): int {
    if k == 0 then 0 else NextCursor(CursorAfter(k - 1, n), n)
  }

  /** After k adds the cursor is k mod pool_size: the queues take promises round-robin. */
  lemma {:induction false} CursorAfterIsMod(k: nat, n: int)
    requires n >= 1
    ensures CursorAfter(k, n) == k % n
    ensures 0 <= CursorAfter(k, n) < n
  {
    if k > 0 {
      CursorAfterIsMod(k - 1, n);
      CursorIsMod(k - 1, n);
    }
  }

  /** One step of the cursor from k mod n is (k + 1) mod n. */
  lemma CursorIsMod(k: nat, n: int)
    requires n >= 1
    ensures NextCursor(k % n, n) == (k + 1) % n
    ensures 0 <= NextCursor(k % n, n) < n
  {
    var q, c := k / n, k % n;
    if c + 1 >= n {
      ModUnique(k + 1, n, q + 1, 0);
    } else {
      ModUnique(k + 1, n, q, c + 1);
    }
  }

  class PromiseProcessPool {
    const poolSize: int
    const options: QueueOptions
    const errorList: ErrorChannel
    const classIndex: QueueIndex
    var processIndex: int
    var nextProcessId: nat
    var processes: seq<ProcessingQueue>
    var started: bool

    ghost predicate Valid()
      reads this, ProcessesOf(processes)
    {
      && |processes| == (if poolSize > 0 then poolSize else 0)
      && nextProcessId == |processes|
      && (forall i :: 0 <= i < |processes| ==>
            processes[i].processId == i && processes[i].process.slot == i && processes[i].queue.slot == i)
      && (if poolSize >= 1 then 0 <= processIndex < poolSize else processIndex == 0)
      && (started ==> forall i :: 0 <= i < |processes| ==> processes[i].process.started)
    }

    /** No process of the pool has been started. */
    ghost predicate NoneStarted()
      reads this`processes, ProcessesOf(processes)
    {
      forall i :: 0 <= i < |processes| ==> !processes[i].process.started
    }

    /** _add_queue(): a queue on the shared error channel, in a new process, with the next process id. */
    method AddQueue()
      modifies this`processes, this`nextProcessId
      ensures |processes| == |old(processes)| + 1 && processes[..|old(processes)|] == old(processes)
      ensures var last := processes[|processes| - 1];
        && last.processId == old(nextProcessId) && fresh(last.process) && fresh(last.queue)
        && last.process.slot == |old(processes)| && last.queue.slot == |old(processes)|
        && !last.process.started && last.queue.index == classIndex.value
        && last.queue.options == options && last.queue.errorList == errorList && last.queue.fifo == []
      ensures nextProcessId == old(nextProcessId) + 1
    {
      var queue := new ProcessPromiseQueue(classIndex, options, errorList, |processes|);
      var p := new Process(|processes|);
      processes := processes + [ProcessingQueue(nextProcessId, p, queue)];
      nextProcessId := nextProcessId + 1;
    }

    /** PromiseProcessPool(pool_size, queue_options): exactly pool_size queues, with process ids 0, 1, ... */
    constructor (poolSize: int, options: QueueOptions, classIndex: QueueIndex)
      ensures Valid() && fresh(errorList) && errorList.items == []
      ensures this.poolSize == poolSize && this.options == options && this.classIndex == classIndex
      ensures processIndex == 0 && !started
      ensures forall i :: 0 <= i < |processes| ==>
        var pq := processes[i];
        && fresh(pq.process) && fresh(pq.queue) && !pq.process.started
        && pq.queue.Id() == classIndex.value && pq.queue.fifo == [] && pq.queue.errorList == errorList
    {
      this.poolSize := poolSize;
      this.options := options;
      this.classIndex := classIndex;
      processIndex, nextProcessId, processes, started := 0, 0, [], false;
      errorList := new ErrorChannel();
      new;
      while |processes| < poolSize
        invariant |processes| <= (if poolSize > 0 then poolSize else 0) && nextProcessId == |processes|
        invariant forall i :: 0 <= i < |processes| ==>
          processes[i].processId == i && processes[i].process.slot == i && processes[i].queue.slot == i
        invariant forall i :: 0 <= i < |processes| ==>
          var pq := processes[i];
          && fresh(pq.process) && fresh(pq.queue) && !pq.process.started
          && pq.queue.Id() == classIndex.value && pq.queue.fifo == [] && pq.queue.errorList == errorList
        invariant errorList.items == [] && processIndex == 0 && !started
        decreases poolSize - |processes|
      {
        AddQueue();
      }
    }

    /** start(): start every process in order; starting one twice raises AssertionError. */
    method Start() returns (raised: Option<Error>)
      requires Valid()
      modifies this`started, ProcessesOf(processes)
      ensures Valid()
      ensures raised.None? <==> forall i :: 0 <= i < |processes| ==> !old(processes[i].process.started)
      ensures raised.Some? ==> raised == Some(AssertionError("cannot start a process twice")) && started == old(started)
      ensures raised.None? ==> started
      ensures forall j :: 0 <= j < |processes| ==> unchanged(processes[j].queue)
    {
      var i := 0;
      while i < |processes|
        invariant 0 <= i <= |processes|
        invariant forall j :: 0 <= j < i ==> processes[j].process.started && !old(processes[j].process.started)
        invariant forall j :: i <= j < |processes| ==> processes[j].process.started == old(processes[j].process.started)
        modifies ProcessesOf(processes)
      {
        var pr := processes[i].process;
        assert forall j :: 0 <= j < |processes| && j != i ==> processes[j].process != pr by {
          assert forall j :: 0 <= j < |processes| ==> processes[j].process.slot == j;
        }
        var r := pr.Start();
        if r.Some? {
          return r;
        }
        i := i + 1;
      }
      started := true;
      raised := None;
    }

    /**
     * add_promise(p): the queue under the cursor takes p, the cursor moves on
     * round-robin, and the first add starts the processes.  With no process
     * the lookup raises IndexError.
     */
    method AddPromise(p: ProcessPromise) returns (raised: Option<Error>)
      requires Valid()
      modifies this`processIndex, this`started, QueuesOf(processes)`fifo, ProcessesOf(processes)
      ensures Valid()
      ensures processes == [] ==> raised == Some(IndexError) && processIndex == old(processIndex)
      ensures processes != [] ==> processIndex == NextCursor(old(processIndex), poolSize)
      ensures processes != [] ==> var q := processes[old(processIndex)].queue;
        q.Snap() == old(q.Snap()).(fifo := old(q.fifo) + [p])
      ensures processes != [] ==> forall j :: 0 <= j < |processes| && j != old(processIndex) ==>
        processes[j].queue.Snap() == old(processes[j].queue.Snap())
      ensures processes != [] && old(started) ==> raised == None
      ensures processes != [] && !old(started) ==>
        && (raised.None? <==> old(NoneStarted()))
        && (raised.None? ==> started)
        && (raised.Some? ==> raised == Some(AssertionError("cannot start a process twice")))
    {
      if processIndex < 0 || processIndex >= |processes| {
        return Some(IndexError);
      }
      Enqueue(p);
      if started {
        return None;
      }
      raised := StartFirst();
    }

    /** The first add's `self.start()`, seen from add_promise: the queues and the cursor do not move. */
    method StartFirst() returns (raised: Option<Error>)
      requires Valid() && !started
      modifies this`started, ProcessesOf(processes)
      ensures Valid() && processIndex == old(processIndex)
      ensures forall j :: 0 <= j < |processes| ==> unchanged(processes[j].queue)
      ensures raised.None? <==> old(NoneStarted())
      ensures raised.None? ==> started
      ensures raised.Some? ==> raised == Some(AssertionError("cannot start a process twice"))
    {
      raised := Start();
    }

    /** The queue under the cursor takes p and the cursor moves on. */
    method Enqueue(p: ProcessPromise)
      requires Valid() && processes != []
      modifies this`processIndex, QueuesOf(processes)`fifo
      ensures Valid()
      ensures processIndex == NextCursor(old(processIndex), poolSize)
      ensures var q := processes[old(processIndex)].queue;
        q.Snap() == old(q.Snap()).(fifo := old(q.fifo) + [p])
      ensures forall j :: 0 <= j < |processes| && j != old(processIndex) ==>
        processes[j].queue.Snap() == old(processes[j].queue.Snap())
      ensures NoneStarted() == old(NoneStarted())
    {
      var q := processes[processIndex];
      processIndex := NextCursor(processIndex, poolSize);
      q.queue.AddPromise(p);
    }

    /** get_errors(): every reported error once, oldest first; the channel is left empty. */
    method GetErrors() returns (errs: seq<Error>)
      modifies errorList
      ensures errs == old(errorList.items) && errorList.items == []
    {
      errs := errorList.Drain();
    }

    /** num_tasks: the sum of what every queue still holds. */
    function NumTasks(): (r: nat)
      reads this, QueuesOf(processes)
      ensures r == TotalTasks(QueuesOf(processes))
    {
      TotalTasks(QueuesOf(processes))
    }
  }
}
