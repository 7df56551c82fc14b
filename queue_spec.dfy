/**
 * One iteration of the worker loop `_run` of a thread promise queue, as a
 * pure function on the queue's scheduling state.  Two variants share it:
 * prompy/threadio/promise_queue.py keeps executed promises in its id map,
 * prompy/threaded/promise_queue.py deletes each one after a successful exec.
 *
 * What the loop cannot compute itself is an input: the `canceled` flag of the
 * dequeued promise, the exception its exec raised (if any), and the clock.
 */
module QueueSpec {
  import opened Wrappers
  import opened Errors

  datatype QConfig = QConfig(maxIdle: real, hasOnStop: bool, deleteAfterExec: bool)

  datatype QState = QState(
    /** ids waiting in the FIFO, front first */
    fifo: seq<PromiseId>,
    /** the keys of the id -> promise map */
    ids: set<PromiseId>,
    running: bool,
    started: bool,
    /** the `_stop_event` flag */
    stopRequested: bool,
    /** the loop-local idle_start */
    idleStart: Option<real>,
    error: Option<Error>,
    /** how many times on_stop has been called */
    stopNotices: nat,
    /** the ids exec was called on, in order */
    executed: seq<PromiseId>)

  datatype QNext = QNext(q: QState, raised: Option<Error>)

  /** `not idle_start`: None, and also a recorded clock value of 0.0, are falsy. */
  predicate IdleUnset(idleStart: Option<real>) {
    idleStart.None? || idleStart.value == 0.0
  }

  /** _stopped(): on_stop is called when there is one. */
  function Stopped(c: QConfig, q: QState): (q': QState)
    ensures q'.stopNotices == q.stopNotices + (if c.hasOnStop then 1 else 0)
  {
    q.(stopNotices := q.stopNotices + (if c.hasOnStop then 1 else 0))
  }

  /** The `except Exception` branch: stop, store, notify, re-raise. */
  function Fail(c: QConfig, q: QState, e: Error): QNext
  {
    QNext(Stopped(c, q.(running := false, error := Some(e))), Some(e))
  }

  /** After a processed item: a pending stop request ends the loop, and the loop's exit calls _stopped(). */
  function AfterItem(c: QConfig, q: QState): QState
  {
    if q.stopRequested then Stopped(c, q.(running := false)) else q
  }

  /** The `except queue.Empty` branch. */
  function EmptyPollSpec(c: QConfig, q: QState, now: real): QState
  {
    if IdleUnset(q.idleStart) then q.(idleStart := Some(now))
    else if now - q.idleStart.value > c.maxIdle then Stopped(c, q.(running := false))
    else q
  }

  /** `current = self._queue.get(...)` then `idle_start = None`. */
  function Dequeue(q: QState): QState
    requires q.fifo != []
  {
    q.(fifo := q.fifo[1..], idleStart := None)
  }

  /** The rest of a pass once `id` has been dequeued. */
  function ItemSpec(c: QConfig, q: QState, id: PromiseId, canceled: bool, execRaised: Option<Error>): QNext
  {
    if id !in q.ids then Fail(c, q, KeyError(id))
    else if canceled then QNext(AfterItem(c, q), None)
    else
      var q2 := q.(executed := q.executed + [id]);
      if execRaised.Some? then Fail(c, q2, execRaised.value)
      else
        var q3 := if c.deleteAfterExec then q2.(ids := q2.ids - {id}) else q2;
        QNext(AfterItem(c, q3), None)
  }

  /**
   * One pass of `while self._running`, for a queue that is running.  When the
   * pass ends the loop, the `_stopped()` after the loop is included.
   */
  function RunOnceSpec(c: QConfig, q: QState, canceled: bool, execRaised: Option<Error>, now: real): QNext
    requires q.running
  {
    if q.fifo == [] then QNext(EmptyPollSpec(c, q, now), None)
    else ItemSpec(c, Dequeue(q), q.fifo[0], canceled, execRaised)
  }

  /**
   * on_stop has been called once exactly when the queue has run and stopped,
   * and never otherwise; a running queue has been started.
   */
  predicate NoticeInvariant(c: QConfig, q: QState) {
    && (q.running ==> q.started)
    && q.stopNotices == (if c.hasOnStop && q.started && !q.running then 1 else 0)
  }

  /** Every ID in the FIFO can be looked up. */
  predicate FifoRegistered(q: QState) {
    forall i :: 0 <= i < |q.fifo| ==> q.fifo[i] in q.ids
  }

  // ---------------------------------------------------------------------

  /** Each pass keeps the on_stop bookkeeping: a queue notifies exactly once, when it stops. */
  lemma RunOnceNotifiesOnce(c: QConfig, q: QState, canceled: bool, execRaised: Option<Error>, now: real)
    requires q.running && NoticeInvariant(c, q)
    ensures NoticeInvariant(c, RunOnceSpec(c, q, canceled, execRaised, now).q)
  {
  }

  /**
   * A pass takes the front id, clears idle_start, and calls exec on it exactly
   * when it is registered and not canceled; nothing else is dequeued.
   */
  lemma RunOnceTakesFront(c: QConfig, q: QState, canceled: bool, execRaised: Option<Error>, now: real)
    requires q.running && q.fifo != []
    ensures var n := RunOnceSpec(c, q, canceled, execRaised, now);
      && n.q.fifo == q.fifo[1..]
      && n.q.idleStart == None
      && n.q.executed == q.executed + (if q.fifo[0] in q.ids && !canceled then [q.fifo[0]] else [])
  {
  }

  /** A canceled promise is skipped and stays registered. */
  lemma CanceledIsSkipped(c: QConfig, q: QState, execRaised: Option<Error>, now: real)
    requires q.running && q.fifo != [] && q.fifo[0] in q.ids
    ensures var n := RunOnceSpec(c, q, true, execRaised, now);
      n.raised == None && n.q.executed == q.executed && n.q.ids == q.ids
  {
  }

  /** The first empty poll only records the clock; a stop request is not looked at. */
  lemma FirstEmptyPollRecords(c: QConfig, q: QState, now: real)
    requires q.running && q.fifo == [] && IdleUnset(q.idleStart)
    ensures RunOnceSpec(c, q, false, None, now) == QNext(q.(idleStart := Some(now)), None)
  {
  }

  /** A later empty poll stops the loop exactly when more than max_idle has elapsed; only then is on_stop called. */
  lemma LaterEmptyPollStops(c: QConfig, q: QState, now: real)
    requires q.running && q.fifo == [] && !IdleUnset(q.idleStart)
    ensures var n := RunOnceSpec(c, q, false, None, now);
      && n.raised == None
      && (!n.q.running <==> now - q.idleStart.value > c.maxIdle)
      && n.q.stopNotices == q.stopNotices + (if !n.q.running && c.hasOnStop then 1 else 0)
  {
  }

  /** A stop request never ends the loop on an empty poll. */
  lemma EmptyPollIgnoresStop(c: QConfig, q: QState, now: real)
    requires q.running && q.fifo == [] && q.stopRequested
    requires IdleUnset(q.idleStart) || now - q.idleStart.value <= c.maxIdle
    ensures RunOnceSpec(c, q, false, None, now).q.running
  {
  }

  /** After a processed item that did not raise, the loop goes on exactly when no stop was requested. */
  lemma StopCheckedAfterItem(c: QConfig, q: QState, canceled: bool, now: real)
    requires q.running && q.fifo != [] && q.fifo[0] in q.ids
    ensures var n := RunOnceSpec(c, q, canceled, None, now);
      n.raised == None && (n.q.running <==> !q.stopRequested)
  {
  }

  /** An exception from exec stops the queue, is stored and re-raised, and on_stop is called once. */
  lemma ExecFailureStops(c: QConfig, q: QState, e: Error, now: real)
    requires q.running && q.fifo != [] && q.fifo[0] in q.ids
    ensures var n := RunOnceSpec(c, q, false, Some(e), now);
      && n.raised == Some(e) && n.q.error == Some(e) && !n.q.running
      && n.q.stopNotices == q.stopNotices + (if c.hasOnStop then 1 else 0)
      && n.q.ids == q.ids
  {
  }

  /** Without deletion (threadio), the id map never shrinks, so every queued id stays registered. */
  lemma KeepingKeepsRegistered(c: QConfig, q: QState, canceled: bool, execRaised: Option<Error>, now: real)
    requires q.running && !c.deleteAfterExec && FifoRegistered(q)
    ensures var n := RunOnceSpec(c, q, canceled, execRaised, now);
      n.q.ids == q.ids && FifoRegistered(n.q)
  {
  }

  /** With deletion (threaded), an id leaves the map exactly when its exec returned normally. */
  lemma DeletionAfterExec(c: QConfig, q: QState, canceled: bool, execRaised: Option<Error>, now: real)
    requires q.running && c.deleteAfterExec && q.fifo != [] && q.fifo[0] in q.ids
    ensures var n := RunOnceSpec(c, q, canceled, execRaised, now);
      n.q.ids == (if !canceled && execRaised.None? then q.ids - {q.fifo[0]} else q.ids)
  {
  }

  /** The id of an executed promise queued twice is gone the second time: the lookup raises KeyError. */
  lemma DeletedTwiceIsKeyError(c: QConfig, q: QState, now: real, later: real)
    requires q.running && c.deleteAfterExec && !q.stopRequested
    requires |q.fifo| >= 2 && q.fifo[0] == q.fifo[1] && q.fifo[0] in q.ids
    ensures var n1 := RunOnceSpec(c, q, false, None, now);
      n1.q.running &&
      var n2 := RunOnceSpec(c, n1.q, false, None, later);
      n2.raised == Some(KeyError(q.fifo[0])) && !n2.q.running && n2.q.executed == q.executed + [q.fifo[0]]
  {
    assert q.fifo[1..][0] == q.fifo[1];
  }

  // ---------------------------------------------------------------------
  // Several passes.

  /** What the loop feeds one pass: the dequeued promise's canceled flag, its exec outcome, the clock. */
  datatype PassInput = PassInput(canceled: bool, execRaised: Option<Error>, now: real)

  /** Passes in order while the loop is running; a pass after the loop ended does nothing. */
  function RunPasses(c: QConfig, q: QState, inputs: seq<PassInput>): QNext
    decreases |inputs|
  {
    if inputs == [] || !q.running then QNext(q, None)
    else
      var n := RunOnceSpec(c, q, inputs[0].canceled, inputs[0].execRaised, inputs[0].now);
      if n.raised.Some? then n else RunPasses(c, n.q, inputs[1..])
  }

  /**
   * FIFO order: with no stop request, no cancellation and no exception, k passes
   * over a queue holding at least k registered ids execute exactly its first k
   * ids, in submission order, and leave the rest queued.
   */
  lemma {:induction false} ExecutesInSubmissionOrder(c: QConfig, q: QState, inputs: seq<PassInput>)
    requires q.running && !q.stopRequested && !c.deleteAfterExec
    requires |inputs| <= |q.fifo| && FifoRegistered(q)
    requires forall i :: 0 <= i < |inputs| ==> !inputs[i].canceled && inputs[i].execRaised.None?
    ensures var n := RunPasses(c, q, inputs);
      && n.raised == None && n.q.running
      && n.q.executed == q.executed + q.fifo[..|inputs|]
      && n.q.fifo == q.fifo[|inputs|..]
    decreases |inputs|
  {
    if inputs != [] {
      var n1 := RunOnceSpec(c, q, inputs[0].canceled, inputs[0].execRaised, inputs[0].now);
      assert n1.q.fifo == q.fifo[1..] && n1.q.executed == q.executed + [q.fifo[0]];
      assert FifoRegistered(n1.q) by {
        forall i | 0 <= i < |n1.q.fifo| ensures n1.q.fifo[i] in n1.q.ids {
          assert n1.q.fifo[i] == q.fifo[i + 1];
        }
      }
      ExecutesInSubmissionOrder(c, n1.q, inputs[1..]);
      assert q.fifo[..|inputs|] == [q.fifo[0]] + q.fifo[1..][..|inputs| - 1];
      assert q.fifo[1..][|inputs| - 1..] == q.fifo[|inputs|..];
    }
  }
}
