# prompy core in Dafny

This project models the core of prompy, a Python library of JavaScript-style promises and the sequential machinery that runs them:

- **The promise state machine** of `prompy/promise.py`: three callback lists and a results buffer bounded by `results_buffer_size`. It also holds the last result, the last error and the pending/fulfilled/rejected state, and `exec` drives a starter. The `ProcessPromise` overrides in `prompy/processio/process_promise.py` are modelled beside it.
- **The id → promise registry** of `prompy/container.py`.
- **The receivers of `add_promise`** (module `Receivers`): the id → promise dict or a thread-queue pool. `container_wrap` and `Caller.call` hand their promise to either one.
- **The thread queues and their pools** in `prompy/threadio/promise_queue.py` and the older `prompy/threaded/promise_queue.py`. One pass of each `_run` loop is a method. The pool is a sequence of queue handles rotated front to back.
- **The process queue and pool** in `prompy/processio/process_promise.py`. `prompy/processio/process_containers.py` holds an identical copy, so both files share one model: one pass of `run`, and a pool with a round-robin cursor.
- **The combinators** `promise_wrap`, `later`, `piter` and `pall` of `prompy/promtools.py` and `prompy/promutils.py`. This includes the `_AllPromiseWrap` counter/flag object behind `pall`.
- **The string logic**:
  - `CallRoute` route templating and the request construction of `Caller.call` (`prompy/networkio/call_factory.py`);
  - the URL scanner and string builders of `prompy/networkio/url_tools.py`;
  - `format_output` in `prompy/processio/proc.py`.

## How the model is built

Every class whose fields the source updates in place is a Dafny `class`. Each of its methods states the new state of what it modifies: for the promise and queue classes, as a pure function applied to a snapshot of the old fields, and otherwise field by field, with what stays unchanged stated too. For example, `Promises.Promise.Resolve` ensures `Next(Snapshot(), raised) == ResolveSpec(Cfg(), old(Snapshot()), v)`. The lemmas about those pure functions (modules `PromiseSpec`, `ProcessPromiseSpec`, `QueueSpec`, `ProcessQueueSpec`, `PoolSpec`) state what the source promises.

- **Callbacks** are opaque ids together with the error they raise, if any. Every invocation is appended to the promise's event trace as the callback id plus its argument list.
- **Starters** are scripts of steps:
  - resolve *v*;
  - reject *e*;
  - raise *e*;
  - `try: resolve(func()) except: reject(...)`;
  - wait.

  `promise_wrap`, `later`, `piter` and `_AllPromiseWrap.__call__` are functions that build such scripts.
- **Exceptions** are returned. The `raised` out-parameter is the exception the Python method lets escape, or `None`.
- **Inputs supplied by the caller** are what the code reads from threads, clocks or user code: the clock value, what a dequeued promise's starter does, the `canceled` flag, and what `on_idle` answers.
- **Errors** of `prompy/errors.py` and the built-in exceptions on the core's paths form the `Errors.Error` datatype. An error raised `from` another keeps that one as its cause.
- **Constants** of `prompy/networkio/http_constants.py` are inlined: `Content-Type` and `application/json`.

## Model

| member | source | states |
|---|---|---|
| PromiseSpec.Fire | prompy/promise.py:113-114 | definition (no contract): a callback loop that stops at the first raising callback; FireCalls and FireAll state its properties |
| PromiseSpec.FinishSpec | prompy/promise.py:133-136 | definition (no contract): _finish; FinishKeeps states what it leaves alone |
| PromiseSpec.ResolveSpec | prompy/promise.py:104-115 | definition (no contract): resolve; ResolveFiresAll and ResolveStopsAtRaisingThen state its outcomes |
| PromiseSpec.RejectSpec | prompy/promise.py:117-131 | definition (no contract): reject; RejectUnhandled and RejectHandled state its outcomes |
| PromiseSpec.Initial | prompy/promise.py:55-66 | a new promise is pending, with no error, no result, an empty buffer and trace, and each callback list holding the given callback or nothing |
| PromiseSpec.Invocations | prompy/promise.py:113-114 | one invocation per callback, in registration order, each with the same arguments |
| PromiseSpec.FireCalls | prompy/promise.py:113-114 | a callback loop calls the callbacks in order up to and including the first one that raises, and passes that error on; it calls all of them exactly when none raises |
| PromiseSpec.FireAll | prompy/promise.py:113-114 | when no callback raises, each is called exactly once, in order, and nothing is raised |
| PromiseSpec.CallEach | prompy/promise.py:129-130 | the imperative `for c in callbacks` loop produces exactly the events and the error that the pure callback loop describes |
| PromiseSpec.Buffered | prompy/promise.py:111-112 | appending to a deque with maxlen: the length never exceeds the bound, the new value is last, and the oldest entry is dropped first when full |
| PromiseSpec.LastN | prompy/promise.py:64 | the newest `results_buffer_size` values of a history never exceed that bound |
| PromiseSpec.BufferedKeepsNewest | prompy/promise.py:111-112 | after any sequence of resolves, the buffer holds exactly the newest `results_buffer_size` values ever resolved |
| PromiseSpec.ThenSpec | prompy/promise.py:70-80 | then appends the callback (duplicates kept) and changes nothing else; it calls the callback at once with the current result iff the promise is fulfilled, and passes on what that call raises |
| PromiseSpec.CatchSpec | prompy/promise.py:82-92 | catch appends the callback and calls it at once with the current error iff the promise is rejected |
| PromiseSpec.CompleteSpec | prompy/promise.py:94-102 | complete only appends; it never calls anything and leaves the state |
| PromiseSpec.FinishKeeps | prompy/promise.py:133-136 | _finish changes neither callbacks, buffer, error nor last result |
| PromiseSpec.RunStep | prompy/promise.py:145 | one step of a starter keeps the buffer within its bound |
| PromiseSpec.RunSteps | prompy/promise.py:144-146 | the starter's steps, run until one raises, keep the buffer within its bound |
| PromiseSpec.ExecSpec | prompy/promise.py:138-151 | exec keeps the buffer within its bound |
| PromiseSpec.ResolveFiresAll | prompy/promise.py:104-115 | on every resolve(v), whatever the state: v becomes the last result and enters the bounded buffer, every then callback is called with v in order, then every complete callback with (result, error); the promise ends fulfilled and nothing is raised |
| PromiseSpec.ResolveStopsAtRaisingThen | prompy/promise.py:113-115 | a raising then callback stops resolve: no complete callback runs, the state is kept and the error escapes |
| PromiseSpec.RejectUnhandled | prompy/promise.py:124-128 | reject(e) with no catch callback stores e, sets rejected and raises UnhandledPromiseError from e; no callback runs |
| PromiseSpec.RejectHandled | prompy/promise.py:129-136 | reject(e) with catch callbacks calls each with e in order, then every complete callback with (result, e); the state ends rejected and nothing is raised |
| PromiseSpec.StateFlips | prompy/promise.py:104-136 | the state is not monotonic: a resolve, then a handled reject, then a resolve give fulfilled, rejected, fulfilled, and the error stays stored |
| PromiseSpec.ExecRejectsStarterError | prompy/promise.py:144-151 | an exception from the starter (or from a then callback inside resolve) goes to reject; with a catch, exec raises PromiseRejectionError exactly when raise_again is set |
| PromiseSpec.ExecUnhandledEscapes | prompy/promise.py:144-148 | without a catch callback, UnhandledPromiseError escapes exec whatever raise_again says |
| PromiseSpec.ExecDoubleReject | prompy/promise.py:124-128 | a starter that rejects a promise with no catch makes reject run twice: the stored error is the first UnhandledPromiseError and a second one, wrapping it, escapes exec |
| PromiseSpec.ResolveAllQuiet | prompy/promise.py:138-146 | a starter that only resolves, with callbacks that return, leaves exec silent and the promise fulfilled with the last value |
| Promises.Promise.constructor | prompy/promise.py:35-68 | a new promise has the initial fields and no resolve history |
| Promises.Promise.Result | prompy/promise.py:157-159 | result is the tuple of the buffered values when more than one is buffered; otherwise it is the last resolved value, or None before any resolve |
| Promises.Promise.Then | prompy/promise.py:70-80 | updates the fields as then does and returns the same promise |
| Promises.Promise.Catch | prompy/promise.py:82-92 | updates the fields as catch does and returns the same promise |
| Promises.Promise.Complete | prompy/promise.py:94-102 | updates the fields as complete does and returns the same promise |
| Promises.Promise.Finish | prompy/promise.py:133-136 | the _finish loop calls every complete callback, then sets the state |
| Promises.Promise.Record | prompy/promise.py:111-112 | remembers v as the last result and in the bounded buffer, keeping the buffer the newest values of the history |
| Promises.Promise.Resolve | prompy/promise.py:104-115 | the in-place resolve follows the resolve function and appends v to the history |
| Promises.Promise.Reject | prompy/promise.py:117-131 | the in-place reject follows the reject function |
| Promises.Promise.RunStarterStep | prompy/promise.py:145 | one step of the starter acts on the promise as the step function says |
| Promises.Promise.Exec | prompy/promise.py:138-151 | the in-place exec follows the exec function |
| Containers.Register | prompy/container.py:33-34 | after adding p, p's id maps to p, the keys grow by p's id only, and every other entry is unchanged; a later promise with the same id replaces the earlier one |
| Containers.HoldsById | prompy/container.py:30-31 | membership compares ids only |
| Containers.RegisterHolds | prompy/container.py:30-34 | after adding p, x is a member iff x has p's id or was a member before |
| Containers.BaseAddPromise | prompy/container.py:10-12 | the base add_promise always raises NotImplementedError |
| Containers.BaseStart | prompy/container.py:19-20 | the base runner's start always raises NotImplementedError |
| Containers.BaseStop | prompy/container.py:22-23 | the base runner's stop always raises NotImplementedError |
| Containers.PromiseContainer.constructor | prompy/container.py:27-28 | a fresh container contains no promise |
| Containers.PromiseContainer.AddPromise | prompy/container.py:33-34 | the dict is updated in place under p.id; afterwards p is in the container |
| Receivers.Ready | prompy/threadio/promise_queue.py:110-120 | what add_promise needs of a receiver: a pool must be well formed with pool_size at least 1; the dict needs nothing |
| Receivers.StateOf | prompy/threadio/promise_queue.py:110-120 | a pool's state as a value records its queues, handles and counter, and exactly each queue's FIFO, id map and status |
| Receivers.StateKept | prompy/threadio/promise_queue.py:110-120 | a step that touches neither the pool, its counter nor its queues leaves the pool's state as it was |
| Receivers.PoolTook | prompy/threadio/promise_queue.py:110-120 | definition (no contract): what add_promise(p) did to a pool; Receivers.AddToPool states it holds after the call |
| Receivers.Footprint | prompy/container.py:42 | definition (no contract): the objects add_promise may change, the dict or the pool with its counter and queues |
| Receivers.AddTo | prompy/container.py:42 | receiver.add_promise(p): a dict registers p under p.id and then contains p; a pool changes as PoolTook says, and a queue that is new afterwards is fresh; p and every object outside the receiver are unchanged |
| Receivers.AddToPool | prompy/threadio/promise_queue.py:110-120 | PromiseQueuePool.add_promise(p) satisfies PoolTook: the handles follow AddSpec, the queue that took p is at the back with p under p.id and p.id last in its FIFO, and every other old queue keeps its FIFO, id map and status |
| Receivers.ContainerWrap | prompy/container.py:37-45 | the wrapper returns exactly the promise the wrapped function produced, after the receiver (a dict or a pool) took it as AddTo says |
| ProcessPromiseSpec.PResolveSpec | prompy/processio/process_promise.py:55-60 | definition (no contract): the overriding resolve; PResolveNeverFinishes states its outcome |
| ProcessPromiseSpec.PRejectSpec | prompy/processio/process_promise.py:62-69 | definition (no contract): the overriding reject; PRejectSetsStateFirst states its outcome |
| ProcessPromiseSpec.PFinally | prompy/processio/process_promise.py:42-45 | definition (no contract): the finally block of exec; PExecCompletesOnce states its outcome |
| ProcessPromiseSpec.PThenSpec | prompy/processio/process_promise.py:47-49 | then only appends; nothing is called, even on a settled promise |
| ProcessPromiseSpec.PCatchSpec | prompy/processio/process_promise.py:51-53 | catch only appends; nothing is called, even on a settled promise |
| ProcessPromiseSpec.PRunStep | prompy/processio/process_promise.py:36 | one starter step keeps the buffer within its bound |
| ProcessPromiseSpec.PRunSteps | prompy/processio/process_promise.py:35-36 | the starter keeps the buffer within its bound |
| ProcessPromiseSpec.PExecBody | prompy/processio/process_promise.py:34-41 | the try/except part of exec keeps the buffer within its bound |
| ProcessPromiseSpec.PExecSpec | prompy/processio/process_promise.py:33-45 | exec keeps the buffer within its bound |
| ProcessPromiseSpec.PResolveNeverFinishes | prompy/processio/process_promise.py:55-60 | resolve records the value and calls every then callback in order; it changes no state and runs no complete callback |
| ProcessPromiseSpec.PRejectSetsStateFirst | prompy/processio/process_promise.py:62-69 | reject stores the error and sets rejected before it checks handlers; it raises UnhandledPromiseError only with no catch, otherwise it calls each catch in order |
| ProcessPromiseSpec.PExecCompletesOnce | prompy/processio/process_promise.py:42-45 | exec calls every complete callback exactly once, last, with the result and error the try/except part left, even when an exception escapes |
| ProcessPromiseSpec.PExecFulfilsOnReturn | prompy/processio/process_promise.py:36-37 | whenever the starter returns without raising, exec leaves the promise fulfilled |
| ProcessPromiseSpec.PExecOverwritesHandledRejection | prompy/processio/process_promise.py:36-37 | a starter that calls reject, handled by a catch, still ends fulfilled with the error kept |
| ProcessPromiseSpec.PExecUnhandled | prompy/processio/process_promise.py:38-45 | a raising starter with no catch lets UnhandledPromiseError escape, after the complete callbacks ran |
| ProcessPromises.ProcessPromise.constructor | prompy/processio/process_promise.py:27-31 | a new process promise has the initial promise fields |
| ProcessPromises.ProcessPromise.Result | prompy/promise.py:157-159 | the inherited result property: the buffered tuple when more than one value is buffered, else the last value |
| ProcessPromises.ProcessPromise.Then | prompy/processio/process_promise.py:47-49 | appends in place as the override says and returns the promise |
| ProcessPromises.ProcessPromise.Catch | prompy/processio/process_promise.py:51-53 | appends in place as the override says and returns the promise |
| ProcessPromises.ProcessPromise.Complete | prompy/promise.py:94-102 | the inherited complete appends the callback as CompleteSpec says, calls nothing, and returns the same promise |
| ProcessPromises.ProcessPromise.Resolve | prompy/processio/process_promise.py:55-60 | the in-place resolve follows the override's function |
| ProcessPromises.ProcessPromise.Reject | prompy/processio/process_promise.py:62-69 | the in-place reject follows the override's function |
| ProcessPromises.ProcessPromise.RunStarterStep | prompy/processio/process_promise.py:36 | one starter step acts on the promise as the step function says |
| ProcessPromises.ProcessPromise.ExecBody | prompy/processio/process_promise.py:34-41 | the try/except part of exec follows its function |
| ProcessPromises.ProcessPromise.Exec | prompy/processio/process_promise.py:33-45 | exec follows its function and sets completed_at to the clock value |
| ProcessQueueSpec.PQRunOnceSpec | prompy/processio/process_promise.py:105-132 | definition (no contract): one pass of run(); PQItemExecutes, PQExecFailure and PQExecutesInOrder state its outcomes |
| ProcessQueueSpec.PQEmptyPoll | prompy/processio/process_promise.py:110-125 | definition (no contract): the Empty branch; PQNoIdleCheck, PQFirstEmptyPollRecords, PQPastMaxIdle, PQOnIdleAskedAgain and PQWithinMaxIdle state its outcomes |
| ProcessQueueSpec.PQFail | prompy/processio/process_promise.py:126-132 | definition (no contract): the except branch; PQExecFailure states its outcome |
| ProcessQueueSpec.PQItemExecutes | prompy/processio/process_promise.py:106-109 | an item is taken from the front and executed; idle_start is cleared exactly when exec returned normally |
| ProcessQueueSpec.PQNoIdleCheck | prompy/processio/process_containers.py:61-63 | with idle_check off, an empty poll changes nothing |
| ProcessQueueSpec.PQFirstEmptyPollRecords | prompy/processio/process_promise.py:113-114 | with idle_check on, the first empty poll only records the clock |
| ProcessQueueSpec.PQPastMaxIdle | prompy/processio/process_containers.py:64-76 | past max_idle the loop stops exactly when there is no on_idle or on_idle answers truthy; on_idle is asked once when it exists |
| ProcessQueueSpec.PQOnIdleAskedAgain | prompy/processio/process_promise.py:117-122 | an on_idle that answers falsy is asked again on the next empty poll still past max_idle |
| ProcessQueueSpec.PQWithinMaxIdle | prompy/processio/process_promise.py:115-117 | before max_idle has elapsed an empty poll changes nothing |
| ProcessQueueSpec.PQExecFailure | prompy/processio/process_promise.py:126-132 | an exception from exec is appended to errors and put on the error channel when there is one; it stops the loop and is re-raised exactly when raise_again is set |
| ProcessQueueSpec.PQExecutesInOrder | prompy/processio/process_promise.py:105-109 | with raise_again off, k passes over at least k queued items execute the first k in FIFO order, whatever exec raises |
| ProcessQueueSpec.PQNeverIdlesOut | prompy/processio/process_containers.py:56-63 | with idle_check off, any number of empty polls leaves the queue running and unchanged |
| ProcessQueues.ErrorChannel.constructor | prompy/processio/process_promise.py:167 | the pool's error queue starts empty |
| ProcessQueues.ErrorChannel.Put | prompy/processio/process_promise.py:129 | a reported error is appended at the back |
| ProcessQueues.ErrorChannel.Drain | prompy/processio/process_promise.py:198-201 | draining yields every error once, oldest first, and empties the channel |
| ProcessQueues.QueueIndex.constructor | prompy/processio/process_promise.py:77 | the class counter is 0; no member ever assigns it, so every queue's id is 0 |
| ProcessQueues.Process.constructor | prompy/processio/process_promise.py:184 | a new process is not started |
| ProcessQueues.Process.Start | prompy/processio/process_promise.py:190 | starting a process twice raises AssertionError; afterwards it is started |
| ProcessQueues.ProcessPromiseQueue.constructor | prompy/processio/process_promise.py:79-96 | the queue's index is the class counter's value, `self.__queue_index += 1` only creates an instance attribute, and the queue starts empty and not running |
| ProcessQueues.ProcessPromiseQueue.Id | prompy/processio/process_containers.py:85-87 | the id is the index read from the class counter |
| ProcessQueues.ProcessPromiseQueue.NumTasks | prompy/processio/process_promise.py:138-140 | num_tasks is the number of promises still queued |
| ProcessQueues.ProcessPromiseQueue.AddPromise | prompy/processio/process_containers.py:49-50 | the promise is appended at the back of the FIFO |
| ProcessQueues.ProcessPromiseQueue.Begin | prompy/processio/process_promise.py:102-103 | run() starts running with idle_start unset |
| ProcessQueues.ProcessPromiseQueue.Fail | prompy/processio/process_promise.py:126-132 | the except branch records, reports to the channel, and stops and re-raises as the pass function says |
| ProcessQueues.ProcessPromiseQueue.PollEmpty | prompy/processio/process_promise.py:110-125 | the Empty branch updates the queue as the pass function says |
| ProcessQueues.ProcessPromiseQueue.RunOnce | prompy/processio/process_promise.py:105-132 | one pass follows the pass function; the dequeued promise is executed by ProcessPromise.exec and the error channel receives what the pass reports |
| ProcessQueues.CursorAfterIsMod | prompy/processio/process_containers.py:126-130 | after k calls of add_promise the cursor is k mod pool_size and stays in [0, pool_size) |
| ProcessQueues.CursorIsMod | prompy/processio/process_promise.py:173-176 | one step of the cursor from k mod n gives (k + 1) mod n, in [0, n) |
| ProcessQueues.PromiseProcessPool.AddQueue | prompy/processio/process_promise.py:182-186 | _add_queue appends a new unstarted process with a fresh, empty queue on the shared error channel, under the next process id |
| ProcessQueues.PromiseProcessPool.constructor | prompy/processio/process_promise.py:161-170 | the pool holds exactly pool_size (or no) fresh entries with process ids 0, 1, ..., none started, all on one empty error channel, with the cursor at 0 |
| ProcessQueues.PromiseProcessPool.Start | prompy/processio/process_promise.py:188-191 | start succeeds iff no process was started before, and then the pool is started; otherwise AssertionError is raised; every queue object is unchanged, all its fields included |
| ProcessQueues.PromiseProcessPool.AddPromise | prompy/processio/process_promise.py:172-180 | the queue under the cursor takes p at the back of its FIFO, with its running flag, idle start, errors, idle queries and executed list kept; every other queue keeps all of those; the cursor moves on round-robin and the first add starts the processes; with no process the lookup raises IndexError |
| ProcessQueues.PromiseProcessPool.StartFirst | prompy/processio/process_promise.py:179-180 | the first add's start leaves every queue object, all its fields included, and the cursor as they were |
| ProcessQueues.PromiseProcessPool.Enqueue | prompy/processio/process_promise.py:173-178 | the queue under the cursor takes p at the back of its FIFO and keeps its other state, the cursor advances and wraps, and every other queue keeps its whole state |
| ProcessQueues.PromiseProcessPool.GetErrors | prompy/processio/process_containers.py:152-155 | get_errors yields every reported error once, in order, and empties the channel |
| ProcessQueues.PromiseProcessPool.NumTasks | prompy/processio/process_containers.py:157-160 | num_tasks is the sum of what each queue still holds |
| QueueSpec.ItemSpec | prompy/threadio/promise_queue.py:49-56 | definition (no contract): a dequeued item; CanceledIsSkipped, DeletionAfterExec and StopCheckedAfterItem state its outcomes |
| QueueSpec.EmptyPollSpec | prompy/threadio/promise_queue.py:57-63 | definition (no contract): the Empty branch; FirstEmptyPollRecords, LaterEmptyPollStops and EmptyPollIgnoresStop state its outcomes |
| QueueSpec.RunOnceSpec | prompy/threadio/promise_queue.py:45-72 | definition (no contract): one pass of _run; RunOnceTakesFront, RunOnceNotifiesOnce and ExecutesInSubmissionOrder state its outcomes |
| QueueSpec.AfterItem | prompy/threadio/promise_queue.py:54-56 | definition (no contract): the stop check after an item; StopCheckedAfterItem states its outcome |
| QueueSpec.Fail | prompy/threadio/promise_queue.py:64-68 | definition (no contract): the except branch; ExecFailureStops states its outcome |
| QueueSpec.Stopped | prompy/threadio/promise_queue.py:95-97 | _stopped notifies on_stop once when there is one |
| QueueSpec.RunOnceNotifiesOnce | prompy/threadio/promise_queue.py:64-72 | every pass keeps the on_stop bookkeeping: a queue notifies exactly once, when it stops, on a normal exit or an exception |
| QueueSpec.RunOnceTakesFront | prompy/threadio/promise_queue.py:47-53 | a pass takes the front id, clears idle_start, and calls exec exactly when that id is stored and not canceled |
| QueueSpec.CanceledIsSkipped | prompy/threadio/promise_queue.py:51-52 | a canceled promise is skipped and stays registered |
| QueueSpec.FirstEmptyPollRecords | prompy/threadio/promise_queue.py:57-59 | the first empty poll only records the clock; a stop request is not looked at |
| QueueSpec.LaterEmptyPollStops | prompy/threadio/promise_queue.py:60-63 | a later empty poll ends the loop exactly when more than max_idle has elapsed, and only then calls on_stop |
| QueueSpec.EmptyPollIgnoresStop | prompy/threaded/promise_queue.py:50-59 | a stop request never ends the loop on an empty poll |
| QueueSpec.StopCheckedAfterItem | prompy/threadio/promise_queue.py:54-56 | after an item that did not raise, the loop goes on exactly when no stop was requested |
| QueueSpec.ExecFailureStops | prompy/threaded/promise_queue.py:60-65 | an exception from exec stops the queue, is stored and re-raised, calls on_stop once, and leaves the raising promise in the map |
| QueueSpec.KeepingKeepsRegistered | prompy/threadio/promise_queue.py:49-53 | without deletion the id map never shrinks, so every queued id stays registered |
| QueueSpec.DeletionAfterExec | prompy/threaded/promise_queue.py:44-49 | with deletion, an id leaves the map exactly when its exec returned normally |
| QueueSpec.DeletedTwiceIsKeyError | prompy/threaded/promise_queue.py:44-48 | an id queued twice whose promise was executed is gone the second time: the lookup raises KeyError and the loop dies |
| QueueSpec.ExecutesInSubmissionOrder | prompy/threadio/promise_queue.py:37-53 | with no stop, cancellation or exception, k passes execute exactly the first k queued ids in submission order and leave the rest queued |
| ThreadQueues.QueueCounter.constructor | prompy/threadio/promise_queue.py:14 | the shared class counter starts at 0 |
| ThreadQueues.PromiseQueue.constructor | prompy/threadio/promise_queue.py:16-35 | a new queue takes the counter's value as its index and increments the counter, so indices are consecutive in creation order; it is empty, and running exactly when built with start |
| ThreadQueues.PromiseQueue.AddPromise | prompy/threadio/promise_queue.py:37-39 | the promise is stored under its id and the id is appended to the FIFO |
| ThreadQueues.PromiseQueue.Start | prompy/threadio/promise_queue.py:74-77 | the worker is started at most once; a second start changes nothing |
| ThreadQueues.PromiseQueue.Stop | prompy/threadio/promise_queue.py:84-85 | stop sets the stop event |
| ThreadQueues.PromiseQueue.Cancel | prompy/threadio/promise_queue.py:79-82 | a stored promise ends canceled with every other field of it (callbacks, results, error, state, trace, history) unchanged and its invariant kept; the queue itself and an unknown id change nothing |
| ThreadQueues.PromiseQueue.NotifyStopped | prompy/threaded/promise_queue.py:88-90 | on_stop is called once when there is one |
| ThreadQueues.PromiseQueue.PollEmpty | prompy/threadio/promise_queue.py:57-63 | the Empty branch updates the queue as the pass function says |
| ThreadQueues.PromiseQueue.Dequeue | prompy/threadio/promise_queue.py:47-48 | the front id is taken and idle_start cleared |
| ThreadQueues.PromiseQueue.CheckStop | prompy/threadio/promise_queue.py:55-56 | a pending stop request ends the loop after an item, and the exit notifies |
| ThreadQueues.PromiseQueue.FailWith | prompy/threadio/promise_queue.py:64-68 | the except branch stops, stores the error and notifies |
| ThreadQueues.PromiseQueue.Consume | prompy/threaded/promise_queue.py:44-52 | the dequeued promise is executed unless canceled (the threaded variant then deletes it), and then the stop request is checked |
| ThreadQueues.PromiseQueue.RunOnce | prompy/threadio/promise_queue.py:45-72 | one pass of the loop follows the pass function; the dequeued promise is executed by Promise.exec unless canceled |
| ThreadQueues.PromiseQueuePool.constructor | prompy/threaded/promise_queue.py:94-100 | a new pool is empty, or filled to pool_size when built with start |
| ThreadQueues.PromiseQueuePool.AddQueue | prompy/threadio/promise_queue.py:122-124 | _add_queue puts a new, running, empty queue with the next index at the back |
| ThreadQueues.PromiseQueuePool.Start | prompy/threadio/promise_queue.py:134-139 | start fills the pool with new queues up to pool_size and keeps the old ones |
| ThreadQueues.PromiseQueuePool.AddPromise | prompy/threadio/promise_queue.py:110-120 | add_promise follows the pool's add function; the queue that takes p ends at the back with p stored under p.id and p.id last in its FIFO, its liveness, stop request, idle start, error and notices kept (a new queue: running and otherwise untouched); every other queue keeps its FIFO, id map and status |
| ThreadQueues.PromiseQueuePool.RotateIn | prompy/threaded/promise_queue.py:105-112 | the rotation loop follows the rotate function; the queue that takes p stores it under p.id and gets p.id last in its FIFO, with its status kept, and every other old queue keeps its FIFO, id map and status |
| ThreadQueues.PromiseQueuePool.SkipDead | prompy/threadio/promise_queue.py:113-116 | dead front queues are replaced one at a time until a running one is at the front, without changing where the rotation ends |
| ThreadQueues.PromiseQueuePool.DropDead | prompy/threadio/promise_queue.py:114-116 | a dead front queue is dropped and a new running one goes to the back |
| ThreadQueues.PromiseQueuePool.GiveFront | prompy/threadio/promise_queue.py:117-120 | a running front queue stores p under p.id, appends p.id to its FIFO, keeps its status and moves to the back |
| ThreadQueues.PromiseQueuePool.IsRunning | prompy/threadio/promise_queue.py:141-155 | is_running is true iff some queue was running; the pool then holds exactly the old pool's running queues, in order (RunningOf), and the handles are KeepRunning of the old handles |
| ThreadQueues.PromiseQueuePool.DrainRunning | prompy/threadio/promise_queue.py:142-149 | the drain loop empties the pool and keeps exactly its running queues, in order |
| ThreadQueues.RunningOf | prompy/threadio/promise_queue.py:142-149 | the running queues of a pool, in order, are no more than the pool |
| ThreadQueues.RunningOfMembers | prompy/threadio/promise_queue.py:142-149 | a queue is kept exactly when it was in the pool and running |
| ThreadQueues.RunningOfFlagged | prompy/threadio/promise_queue.py:142-149 | filtering the queues is filtering by the running flags read once from the pool |
| ThreadQueues.KeepRunningOf | prompy/threadio/promise_queue.py:141-155 | keeping the running queues keeps exactly their handles: KeepRunning of the handles is the handles of RunningOf |
| ThreadQueues.KeepRunningMatches | prompy/threadio/promise_queue.py:141-155 | when the handles track the queues, the kept handles track the kept queues |
| ThreadQueues.FilterRunning | prompy/threadio/promise_queue.py:142-149 | the `while not empty: q = get(); if q.is_running: keep q` loop returns exactly RunningOf of the pool |
| ThreadQueues.PromiseQueuePool.PutBack | prompy/threadio/promise_queue.py:152-153 | the kept queues are put back in order |
| ThreadQueues.PromiseQueuePool.Stop | prompy/threadio/promise_queue.py:126-132 | every queue in the pool gets its stop event set, with every other part of its status and its id map kept, and the pool is emptied |
| PoolSpec.Rotate | prompy/threadio/promise_queue.py:113-120 | definition (no contract): the `while True` rotation of add_promise; RotateShape gives its closed form and RotateEnds its shape |
| PoolSpec.AddSpec | prompy/threadio/promise_queue.py:110-120 | definition (no contract): add_promise on the handles; AddKeepsCapacity, AddTargetsRunning and AddToRunningFront state its outcomes |
| PoolSpec.FreshRun | prompy/threadio/promise_queue.py:122-124 | queues created one after another get consecutive indices and are running |
| PoolSpec.DeadPrefix | prompy/threadio/promise_queue.py:114-116 | the number of dead queues at the front: all of them are dead, and the next one runs |
| PoolSpec.RotateDeadStep | prompy/threadio/promise_queue.py:115-116 | a dead front queue is replaced at the back by a new running one, and the rotation goes on |
| PoolSpec.RotateLiveStep | prompy/threadio/promise_queue.py:117-120 | a running front queue takes the promise and goes to the back |
| PoolSpec.KeepRunningStep | prompy/threaded/promise_queue.py:136-139 | the drain loop looks at one queue at a time, front first |
| PoolSpec.FillSpec | prompy/threaded/promise_queue.py:126-131 | populate brings the pool to pool_size, or leaves a larger pool alone |
| PoolSpec.KeepRunning | prompy/threadio/promise_queue.py:141-155 | what is_running keeps is no longer than the pool and all running |
| PoolSpec.RotateShape | prompy/threadio/promise_queue.py:113-120 | the rotation loop equals its closed form: the dead front queues are dropped and as many new running queues appended; the first running queue takes p and goes last, or, when all were dead, the first new queue does |
| PoolSpec.RotateEnds | prompy/threadio/promise_queue.py:113-120 | the rotation keeps the pool's size, leaves the queue that got the promise running at the back, and creates one queue per dead front queue |
| PoolSpec.AddKeepsCapacity | prompy/threaded/promise_queue.py:102-112 | the pool never exceeds pool_size and grows by one exactly when it was below it |
| PoolSpec.AddTargetsRunning | prompy/threadio/promise_queue.py:110-120 | the queue that gets the promise is running and ends at the back |
| PoolSpec.AddToRunningFront | prompy/threadio/promise_queue.py:111-120 | with a full pool whose front queue runs, that queue gets the promise and only moves to the back |
| PoolSpec.KeepRunningNonEmpty | prompy/threadio/promise_queue.py:151 | is_running is true iff some queue is running |
| PoolSpec.KeepRunningMembers | prompy/threadio/promise_queue.py:141-155 | what stays in the pool is exactly the running queues |
| PoolSpec.KeepRunningIdempotent | prompy/threaded/promise_queue.py:133-147 | the kept queues keep their order: a second is_running changes nothing |
| PoolSpec.FillFromEmpty | prompy/threadio/promise_queue.py:134-139 | start on an empty pool creates pool_size running queues with consecutive indices |
| PromTools.AllThen | prompy/promtools.py:46-51 | definition (no contract): _AllPromiseWrap.then; AllThenCounts and AllThenForwards state its outcomes |
| PromTools.AllCatch | prompy/promtools.py:53-56 | definition (no contract): _AllPromiseWrap.catch; AllThenCounts and AllCatchForwards state its outcomes |
| PromTools.AllCallScript | prompy/promtools.py:36-44 | definition (no contract): _AllPromiseWrap.__call__ as a starter script; ToolsCallCases, UtilsCallFails and NoInputsResolveEmpty state its outcomes |
| PromTools.RegisterOne | prompy/promtools.py:64 | definition (no contract): registering the wrap on one input; RegisterCounts states the outcome over all inputs |
| PromTools.RegisterAll | prompy/promtools.py:63-64 | definition (no contract): registering on every input in turn; RegisterCounts states its outcome |
| PromTools.PromiseWrap | prompy/promtools.py:9-21 | promise_wrap's starter is a single guarded call of func |
| PromTools.Later | prompy/promtools.py:77-91 | later's starter waits for the delay, then is the promise_wrap starter; a raising wait_func ends it with that error |
| PromTools.Piter | prompy/promtools.py:69-74 | piter's starter has one resolve step per element, in iteration order |
| PromTools.PromiseWrapOutcome | prompy/promtools.py:14-18 | a returning func resolves with its value; a raising func, or a raising then callback, rejects with that error; nothing escapes |
| PromTools.LaterWaitsOnce | prompy/promtools.py:83-88 | later calls wait_func(delay) exactly once, then behaves exactly like promise_wrap |
| PromTools.LaterWaitRaises | prompy/promtools.py:83-88 | when wait_func raises e, func is never called, whatever it would do, and exec rejects the promise with e |
| PromTools.PiterIsResolveAll | prompy/promutils.py:67-72 | piter over values is resolve of each value in turn |
| PromTools.PiterResolvesInOrder | prompy/promtools.py:70-72 | piter resolves once per element in iteration order: the trace gets every then callback for the first element, then for the second, and so on |
| PromTools.RunPiter | prompy/promutils.py:68-70 | the starter's for loop, run against a promise, does what the piter steps do |
| PromTools.CountState | prompy/promtools.py:41-43 | the number of inputs in a given state is at most the number of inputs |
| PromTools.ResultsOf | prompy/promtools.py:42 | [p.result for p in promises], in argument order |
| PromTools.CountStateMeans | prompy/promtools.py:41-43 | counting fulfilled inputs equal to their number means all are fulfilled; a positive count of rejected inputs means some is rejected |
| PromTools.AllThenCounts | prompy/promtools.py:46-56 | then increments res on every call and appends the result only while not rejected; catch sets rejected and keeps the counters |
| PromTools.AllThenForwards | prompy/promtools.py:46-51 | then resolves the combined promise with the results exactly when the count reaches num_promises, the wrap is not rejected and the starter has run |
| PromTools.AllCatchForwards | prompy/promtools.py:53-56 | catch forwards the error only when the starter has run |
| PromTools.RejectedIsPermanent | prompy/promutils.py:44-54 | no event clears rejected; num_promises never changes and res never goes down |
| PromTools.ThensCollect | prompy/promutils.py:44-49 | results are collected in completion order |
| PromTools.ToolsCallCases | prompy/promtools.py:36-44 | __call__ tries in order: the collected results, then all inputs fulfilled (their results in argument order), then any rejection (Exception "Promise all reject"), else nothing |
| PromTools.UtilsCallFails | prompy/promutils.py:34-42 | the promutils __call__ reads `resolved`, which Promise lacks: with inputs and uncollected results it raises AttributeError |
| PromTools.NoInputsResolveEmpty | prompy/promtools.py:39-40 | pall with no promise resolves with [] |
| PromTools.CollectedBeforeCall | prompy/promutils.py:37-38 | when every input resolved before exec, the starter resolves with their results in completion order |
| PromTools.CollectedAfterCall | prompy/promtools.py:50-51 | after exec, the then that completes the count resolves the combined promise with every result |
| PromTools.RegisterCounts | prompy/promtools.py:63-64 | after registration the wrap has counted the inputs already fulfilled, is rejected iff one already was, and has forwarded nothing |
| PromTools.AllPromiseWrap.constructor | prompy/promtools.py:26-34 | a new wrap has res 0, is not rejected, has no results and has not run |
| PromTools.AllPromiseWrap.Then | prompy/promtools.py:46-51 | the in-place then follows the then function |
| PromTools.AllPromiseWrap.Catch | prompy/promtools.py:53-56 | the in-place catch follows the catch function |
| PromTools.AllPromiseWrap.Call | prompy/promtools.py:36-44 | __call__ produces the script of its case analysis over the inputs' views and marks the wrap as run |
| PromTools.RegisterOn | prompy/promtools.py:64 | `p.then(starter.then).catch(starter.catch)` appends both callbacks, leaves p's state, result and error, and updates the wrap as registration does |
| PromTools.RegisterEach | prompy/promtools.py:63-64 | the registration loop registers on every input and updates the wrap as registration over all inputs does |
| PromTools.RegisterAt | prompy/promtools.py:64 | one turn of the loop registers on one input and leaves every input's view as it was |
| PromTools.Pall | prompy/promtools.py:59-66 | pall registers then and catch on every input before building the combined promise, which is new and pending |
| PromTools.Deliver | prompy/promtools.py:50-56 | the wrap's forwarded call is a resolve or reject of the combined promise, or nothing |
| PromTools.ExecCombined | prompy/promtools.py:36-44 | exec of the combined promise runs the wrap's __call__ script over the inputs and marks the wrap as run |
| Text.Decimal | prompy/networkio/url_tools.py:64 | str(n) is a non-empty string of digits |
| Text.DecimalRoundTrip | prompy/networkio/url_tools.py:64 | int(str(n)) == n |
| UrlTools.UrlEncode | prompy/networkio/url_tools.py:15 | definition (no contract): urlencode of string pairs; EncodedPairsSeparate states its shape |
| UrlTools.ParseUrl | prompy/networkio/url_tools.py:54-67 | definition (no contract): Url(s); NotAUrl, UrlOfMatch, ParseFields, ParsedHost and ParseFormat state its outcomes |
| UrlTools.Utf8 | prompy/networkio/url_tools.py:15 | the UTF-8 encoding of a character: one to four bytes, a single byte exactly for ASCII, and continuation bytes in 0x80..0xBF |
| UrlTools.PercentBytes | prompy/networkio/url_tools.py:15 | %XX per byte: three characters each, all '%' or safe |
| UrlTools.QuotePlus | prompy/networkio/url_tools.py:15 | quote_plus output holds only '%', '+' and safe characters |
| UrlTools.QuotePlusKeepsSafe | prompy/networkio/url_tools.py:15 | a string of safe characters is its own quoting |
| UrlTools.EncodedPairsSeparate | prompy/networkio/url_tools.py:15 | the encoded pairs are separated by exactly \|params\|-1 '&', and hold no '#' or '?' |
| UrlTools.EncodeUrlParams | prompy/networkio/url_tools.py:14-16 | always url + '?' + urlencode(params), adding exactly one '?' even when url already holds one |
| UrlTools.JsonHeaders | prompy/networkio/url_tools.py:47-50 | json_headers has the single key Content-Type |
| UrlTools.DetectContentCharset | prompy/networkio/url_tools.py:41-44 | None exactly when 'charset=' occurs nowhere; otherwise the text after the first one, holding no line break |
| UrlTools.JsonHeadersCharset | prompy/networkio/url_tools.py:47-50 | the charset written by json_headers is the one detect_content_charset reads back |
| UrlTools.CharsetAfterPrefix | prompy/networkio/url_tools.py:41-44 | after a prefix that cannot start 'charset=', the first 'charset=' is the one that follows it |
| UrlTools.CharsetStopsAtLineBreak | prompy/networkio/url_tools.py:11 | the detected charset follows the first 'charset=' and ends at a line break or at the end |
| UrlTools.FindScheme | prompy/networkio/url_tools.py:55 | a found position holds `https?://` |
| UrlTools.FindSchemeLeftmost | prompy/networkio/url_tools.py:55 | the search finds the leftmost `https?://`, and finds none only when there is none |
| UrlTools.PortEnd | prompy/networkio/url_tools.py:10 | the port group is ':' and the longest run of digits when ':' follows the host, else empty |
| UrlTools.ProtocolAt | prompy/networkio/url_tools.py:10 | the protocol group is "http" or "https" and is followed by "://" |
| UrlTools.MatchAt | prompy/networkio/url_tools.py:9-10 | the groups of a match start right after '://' and follow one another in order |
| UrlTools.PortDigits | prompy/networkio/url_tools.py:10 | the characters after ':' in the port group are digits |
| UrlTools.UrlOfMatch | prompy/networkio/url_tools.py:58-67 | building the Url fails exactly when ':' has no digit after it (`int('')`); otherwise it keeps the whole string and the protocol |
| UrlTools.ParseAt | prompy/networkio/url_tools.py:55-67 | a parse with the leftmost scheme at i builds the Url from the match at i |
| UrlTools.NotAUrl | prompy/networkio/url_tools.py:55-57 | Url(s) raises TypeError "Not a valid url -- s" exactly when `http://` or `https://` occurs nowhere in s |
| UrlTools.ParsedProtocol | prompy/networkio/url_tools.py:60-61 | a parsed Url keeps the whole string and has protocol http or https |
| UrlTools.SetParams | prompy/networkio/url_tools.py:73-78 | the params setter stores a string verbatim and a dict as its urlencoded form, and changes no other field |
| UrlTools.ParseFields | prompy/networkio/url_tools.py:58-67 | each field of a parsed Url is the corresponding group of the leftmost match |
| UrlTools.MatchHost | prompy/networkio/url_tools.py:10 | the host group is the longest run of word characters and '.', and a port group exists exactly when ':' follows it |
| UrlTools.ParsedFromLeftmost | prompy/networkio/url_tools.py:55-61 | the protocol of a parsed Url is that of the leftmost `https?://` |
| UrlTools.ParsedHost | prompy/networkio/url_tools.py:62-64 | the host of a parsed Url is the maximal run of word characters and '.' after '://', and port is set exactly when ':' follows it |
| UrlTools.EmptyPort | prompy/networkio/url_tools.py:10 | ':' after the host with no digit gives a port group with no digits |
| UrlTools.EmptyPortFails | prompy/networkio/url_tools.py:63-64 | such a port makes `int('')` fail, so Url(s) raises |
| UrlTools.TagFollowsHash | prompy/networkio/url_tools.py:10 | the tag is non-empty only right after a '#' |
| UrlTools.ParamsWithoutQuestionMark | prompy/networkio/url_tools.py:66 | params can be non-empty without a '?': a parameter character right after the path starts a non-empty params group |
| UrlTools.ParamsAfterPath | prompy/networkio/url_tools.py:10 | the params group starts right after the path when no '?' is there |
| UrlTools.ParseFormat | prompy/networkio/url_tools.py:54-67 | a URL spelled from well-formed parts parses back to exactly those parts |
| CallFactory.ParamsFrom | prompy/networkio/call_factory.py:38 | definition (no contract): `re.findall('<(\w*)>', ...)` scanning left to right; ParamsSound and ParamsComplete state its properties |
| CallFactory.RouteParams | prompy/networkio/call_factory.py:57 | definition (no contract): route_params; RouteParamsNames and NoParamsIff state its properties |
| CallFactory.Replace | prompy/networkio/call_factory.py:84 | definition (no contract): str.replace; ReplaceAbsent and ReplaceClosed state its properties |
| CallFactory.Substitute | prompy/networkio/call_factory.py:81-85 | definition (no contract): the replace loop; SubstituteKeeps, UnnamedIgnored and RepeatIgnored state its properties |
| CallFactory.MissingParams | prompy/networkio/call_factory.py:78-80 | definition (no contract): the exception for a count mismatch; ArgCountChecked states when it is raised |
| CallFactory.FormatRoute | prompy/networkio/call_factory.py:61-85 | definition (no contract): format_route_params; NoPlaceholderUnchanged, ArgCountChecked, RepeatedNameIgnored and NoPlaceholderRemains state its properties |
| CallFactory.CallUrl | prompy/networkio/call_factory.py:167-169 | definition (no contract): the url of a call; CallUrlShape and MissingRouteParamsFails state its properties |
| CallFactory.MissingRouteParamsFails | prompy/networkio/call_factory.py:147-167 | with the default route_params=None, `*route_params` raises TypeError before anything else, on every route |
| CallFactory.BuildRequest | prompy/networkio/call_factory.py:167-185 | definition (no contract): the request handed to url_call; BuildRequestShape states its properties |
| CallFactory.Tag | prompy/networkio/call_factory.py:84 | `<name>` is the name between '<' and '>' |
| CallFactory.ParamsSound | prompy/networkio/call_factory.py:38 | every name findall returns is made of word characters and names a placeholder of the route |
| CallFactory.ParamsComplete | prompy/networkio/call_factory.py:57 | findall never skips a placeholder: every one's name is in route_params |
| CallFactory.NoParamsIff | prompy/networkio/call_factory.py:75 | a route has no params exactly when it holds no placeholder |
| CallFactory.TagAt | prompy/networkio/call_factory.py:84 | `<q>` is written at i exactly when a placeholder named q starts there |
| CallFactory.ReplaceAbsent | prompy/networkio/call_factory.py:84 | str.replace with a pattern that does not occur returns the string unchanged |
| CallFactory.ReplaceClosed | prompy/networkio/call_factory.py:84 | replacing `<p>` by a value without '<' in a route whose every '<' opens a placeholder leaves only placeholders of the route not named p |
| CallFactory.RouteParamsNames | prompy/networkio/call_factory.py:57-58 | route_params lists exactly the names of the route's placeholders, each made of word characters |
| CallFactory.NoPlaceholderUnchanged | prompy/networkio/call_factory.py:75-76 | a route with no params is returned unchanged, whatever the arguments |
| CallFactory.ArgCountChecked | prompy/networkio/call_factory.py:78-80 | with params, formatting fails exactly when the argument count differs; the message lists the params from position len(args) on, an empty list when too many are given |
| CallFactory.SubstituteKeeps | prompy/networkio/call_factory.py:81-85 | when every '<' of the route opens a placeholder and no argument holds '<', after the replace loop every '<' still opens a placeholder, and each remaining placeholder is one of the route not named by any param |
| CallFactory.UnnamedIgnored | prompy/networkio/call_factory.py:81-85 | when every '<' of the route opens a placeholder and no argument holds '<', an argument whose param name has no placeholder in the route does not affect the result |
| CallFactory.RepeatIgnored | prompy/networkio/call_factory.py:81-85 | when every '<' of the route opens a placeholder and no argument holds '<': for names equal at positions j < k, step j already replaced every occurrence, so argument k is never used |
| CallFactory.RepeatedNameIgnored | prompy/networkio/call_factory.py:57-85 | when every '<' of the route opens a placeholder and no argument holds '<', only the argument at a repeated param name's first position is used |
| CallFactory.NoPlaceholderRemains | prompy/networkio/call_factory.py:81-85 | when every '<' of the route opens a placeholder and no argument holds '<', the formatted route holds no '<' |
| CallFactory.StrayBracketSurvives | prompy/networkio/call_factory.py:81-85 | without that premise a '<' survives: "<<a>>" formatted with "b" is "<b>" |
| CallFactory.RepeatedNameUsedWithoutClosed | prompy/networkio/call_factory.py:57-85 | without that premise a repeated name's later argument is used: "<a><<a>a>" has params a, a, and formats with ("", "x") to "x" and with ("", "y") to "y" |
| CallFactory.CallRoute.Params | prompy/networkio/call_factory.py:57-58 | route_params is what findall finds in the route |
| CallFactory.FormatRouteParams | prompy/networkio/call_factory.py:61-85 | the loop rewriting a local route computes format_route_params |
| CallFactory.FormatData | prompy/networkio/call_factory.py:87-98 | None for falsy data, JSON bytes when the content type contains application/json, UTF-8 bytes of a str otherwise; any other data raises AttributeError |
| CallFactory.JsonHeadersSendJson | prompy/networkio/call_factory.py:96-97 | with the content type of json_headers, truthy data is sent as JSON |
| CallFactory.CallUrlShape | prompy/networkio/call_factory.py:167-169 | the url starts with base_url and the formatted route; '?' and the encoded params are appended exactly when params is non-empty |
| CallFactory.BuildRequestShape | prompy/networkio/call_factory.py:167-185 | the request fails exactly when route_params is missing (TypeError), the route cannot be formatted or the data cannot be encoded, with the first of those errors; otherwise it carries the url, the method and the body, and the headers with Content-Type set to the route's and every other header kept |
| CallFactory.SetContentType | prompy/networkio/call_factory.py:173-174 | the headers sent are the given ones with Content-Type set; a given non-empty dict is updated in place, an empty one is replaced by a new dict and left alone |
| CallFactory.Caller.constructor | prompy/networkio/call_factory.py:130-143 | a caller keeps its base url and optional receiver, a dict or a thread-queue pool |
| CallFactory.Caller.Call | prompy/networkio/call_factory.py:145-191 | call fails exactly when the request cannot be built, including the TypeError of the default route_params=None, and then leaves the promise and the receiver untouched; otherwise it hands url_call the built request, registers after_call as a complete callback, has the receiver (a dict, or a pool as PoolTook says) take the promise, and returns it |
| CallFactory.Caller.Url | prompy/networkio/call_factory.py:147-169 | the url of a call is base_url + the formatted route, then encode_url_params when params is truthy; a missing route_params raises TypeError |
| CallFactory.Caller.Prepare | prompy/networkio/call_factory.py:167-185 | the part before url_call builds exactly BuildRequest from the incoming headers and sets Content-Type as SetContentType says; no other object changes |
| CallFactory.Caller.Dispatch | prompy/networkio/call_factory.py:187-190 | the promise gets the after_call complete callback and the receiver, when set, takes it as AddTo says; no other object changes |
| Proc.Split | prompy/processio/proc.py:28 | definition (no contract): re.split at runs of '\r' and '\n'; SplitText, SplitEdges and SplitTrailing state its properties |
| Proc.Pieces | prompy/processio/proc.py:46 | definition (no contract): the chained pieces of every string; PiecesText states its properties |
| Proc.FormatOutput | prompy/processio/proc.py:44-47 | definition (no contract): format_output; FormatOutputBreaks, FormatOutputLines, FormatOutputSingle and FormatOutputEmpty state its properties |
| Proc.SplitFrom | prompy/processio/proc.py:28 | re.split at runs of line breaks always gives at least one piece |
| Proc.Strip | prompy/processio/proc.py:28 | the text with every '\r' and '\n' removed holds no line break |
| Proc.SplitFromText | prompy/processio/proc.py:28 | the pieces hold no line break and together are the text without its breaks, in order |
| Proc.SplitText | prompy/processio/proc.py:46 | splitting one string: no piece contains '\r' or '\n', and the pieces keep every other character in order |
| Proc.SplitEdges | prompy/processio/proc.py:28 | a string without breaks splits into itself; a leading break gives an empty first piece |
| Proc.SplitTrailing | prompy/processio/proc.py:28 | a trailing break gives an empty last piece |
| Proc.Spaces | prompy/processio/proc.py:45 | `' ' * indent` is indent spaces, and empty for indent zero or negative |
| Proc.Lines | prompy/processio/proc.py:47 | one line per piece, each the indentation followed by that piece |
| Proc.PiecesConcat | prompy/processio/proc.py:46 | chaining keeps each string's pieces together and the strings in order |
| Proc.PiecesText | prompy/processio/proc.py:46 | the chained pieces hold no break, are empty only for empty output, and are all the output's text in order |
| Proc.LinesNoBreak | prompy/processio/proc.py:45-47 | every line is break-free |
| Proc.FormatOutputBreaks | prompy/processio/proc.py:47 | the result has exactly (pieces − 1) '\n' and no '\r' |
| Proc.FormatOutputEmpty | prompy/processio/proc.py:46-47 | an empty output tuple gives "" |
| Proc.FormatOutputSingle | prompy/processio/proc.py:44-47 | with indent 0, a single string without a line break comes back unchanged |
| Proc.SplitJoin | prompy/processio/proc.py:47 | splitting at '\n' undoes the join for lines without '\n' |
| Proc.FormatOutputLines | prompy/processio/proc.py:45-47 | the lines of the result are exactly indent spaces followed by each piece, in order |
| Proc.LeadingBreakLine | prompy/processio/proc.py:44-47 | a string starting with a line break gives a bare-indentation first line |
| Proc.TrailingBreakLine | prompy/processio/proc.py:44-47 | a string ending with a line break gives a bare-indentation line for its last piece |

## Left out

- **Threads, processes, locks, events and clocks.** Each consumer loop is one pass per call, and its clock value and the dequeued promise's behaviour are inputs. `stop_event.wait(interval)` and the lock are not modelled. That includes the lock left held when exec raises.
- **New-queue liveness.** A thread queue started by `_add_queue` is running from the moment it starts. This leaves out the race before its thread enters `_run`.
- ThreadQueues.PromiseQueuePool.Stop: sets every queue's stop request and empties the pool. It does not model the blocking `get()` that keeps the source's loop from ever ending.
- **PromiseProcessPool.stop** (terminate and join) is not modelled. Processes only remember whether they were started.
- **Serialization.** `serialize_fun`/`deserialize_fun` are the identity, and the `namespace` argument is not modelled.
- **Ids and timestamps.** `uuid4` ids are given as inputs (`PromiseId`), and so is the value of `time.time()` that `completed_at` receives.
- **Generators.** Values returned by callbacks and starters are ignored. The generator draining of `callback_handler` is not modelled.
- **Options with no effect on the modelled behaviour.** `canceled` and `completed_at` are kept as fields. `start_now` is modelled as an Exec call by the caller. `poll_time`, `queue_timeout`, `interval` and `daemon` are not modelled.
- **CallFactory.Caller.Call:**
  - `url_call` stands for a given promise, and the network call is not modelled.
  - `prom_type` and `prom_args` are not modelled, nor are `origin_req_host` and `unverifiable`.
  - `before_call` and `after_call` are the source's no-op hooks. after_call appears only as the complete callback it registers.
- **The `_MetaCall` metaclass** that routes `call_*` methods to `Caller.call` is not modelled.
- **The default `method` of CallRoute** is `http_constants.HTTP_GET`, which `prompy/networkio/http_constants.py` does not define (it defines `GET`). Python evaluates that default when it runs the `def`, so importing `prompy/networkio/call_factory.py` as written raises AttributeError and none of its code can run. The model takes the method as an explicit field (`verb`) and describes the code as if the module loaded.
- **Route arguments** are taken as already converted with `str`.
- **FormatData** covers None, str, list and dict data. `json.dumps` is kept symbolic (`JsonBytes`).
- **urlencode** does not model dict iteration order (the pairs are a sequence), `str` of non-string values, or `doseq`.
- CallFactory.NoPlaceholderRemains: requires that every '<' of the route opens a placeholder and that no argument holds '<'. Without the first premise the claim is false, as `CallFactory.StrayBracketSurvives` shows.
- CallFactory.SubstituteKeeps: requires the same two premises. A replacement can otherwise create a new placeholder from a stray '<'.
- CallFactory.UnnamedIgnored: requires the same two premises, for the same reason.
- CallFactory.RepeatIgnored: requires the same two premises. Without them a later argument of a repeated name can be used, as `CallFactory.RepeatedNameUsedWithoutClosed` shows.
- CallFactory.RepeatedNameIgnored: requires the same two premises. Without them the claim is false on "<a><<a>a>", as `CallFactory.RepeatedNameUsedWithoutClosed` shows.
- **Unicode.** `\w` and `\d` are taken as ASCII, and UTF-8 is computed per code point.
- **Other receivers.** `BasePromiseContainer.add_promise` and `BasePromiseRunner` only raise NotImplementedError (`Containers.BaseAddPromise`). `PromiseProcessPool` and the older `prompy/threaded` pool are not receivers in `Receivers`. Their `add_promise` is modelled on its own (`ProcessQueues.PromiseProcessPool.AddPromise`, `ThreadQueues.PromiseQueuePool.RotateIn`).
- **Other containers.** `default_content_mapper`, the response classes of `url_tools.py`, `process_pool.py`, the asyncio, subprocess, file and network wrappers, and the global pools built at import are not part of this model.
- **ProcessQueues** models `prompy/processio/process_promise.py` and `prompy/processio/process_containers.py` once, because their queue and pool code is identical.
- PromTools.PromiseWrapOutcome: stated for a promise whose catch callbacks return and with `raise_again` off. Other cases follow from `PromiseSpec.ExecRejectsStarterError` and `PromiseSpec.ExecUnhandledEscapes`.
- PromTools.Pall: the wiring from an input's later resolve or reject to the wrap's then or catch, and on to the combined promise, is not one operation of the model. It is the trace events the input records (the wrap's callback ids), which a caller follows with `AllPromiseWrap.Then`/`Catch` and `Deliver`.
- Promises.Promise.constructor: `results_buffer_size` is a natural number. `None` (an unbounded deque) and a negative value (ValueError from `deque`) are not modelled.
- ThreadQueues.PromiseQueuePool.AddPromise: requires pool_size >= 1. With pool_size <= 0 the source adds no queue and blocks forever on the empty pool's `get()`, which the model does not capture.
- **Idle timeout.** `max_idle` follows the code: a queue stops after an empty poll once more than `max_idle` has elapsed, so `max_idle` 0 still stops.
- **A non-integer indent** of `format_output` (TypeError from `' ' * indent`) is not modelled. A negative one gives no indentation, as in the source.
