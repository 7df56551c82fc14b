/**
 * One iteration of the `while True` loop of ProcessPromiseQueue.run
 * (prompy/processio/process_promise.py and the identical copy in
 * prompy/processio/process_containers.py), as a pure function.
 *
 * The loop's inputs are explicit: the exception the dequeued promise's exec
 * raised (if any), the clock value, and what on_idle answers when it is asked.
 * The queued items are left abstract (type parameter T).
 */
module ProcessQueueSpec {
  import opened Wrappers
  import opened Errors
  import opened QueueSpec

  /** The constructor's options that the loop reads. */
  datatype PQConfig = PQConfig(
    maxIdle: real,
    idleCheck: bool,
    hasOnIdle: bool,
    raiseAgain: bool,
    /** `if self._error_list:` — an error channel was given */
    hasErrorList: bool)

  datatype PQState<T> = PQState(
    fifo: seq<T>,
    running: bool,
    idleStart: Option<real>,
    /** `_errors`, oldest first */
    errors: seq<Error>,
    /** how many times on_idle has been called */
    idleQueries: nat,
    /** the items exec was called on, in order */
    executed: seq<T>)

  /** The state after a pass, the error put on the error channel, and the exception re-raised. */
  datatype PQNext<T> = PQNext(q: PQState<T>, reported: Option<Error>, raised: Option<Error>)

  /** `except Exception as e`: record, report, and stop and re-raise only with raise_again. */
  function PQFail<T>(c: PQConfig, q: PQState<T>, e: Error): PQNext<T>
  {
    var q1 := q.(errors := q.errors + [e]);
    var reported := if c.hasErrorList then Some(e) else None;
    if c.raiseAgain then PQNext(q1.(running := false), reported, Some(e)) else PQNext(q1, reported, None)
  }

  /** `except Empty`: the idle handling. */
  function PQEmptyPoll<T>(c: PQConfig, q: PQState<T>, now: real, stopAnswer: bool): PQState<T>
  {
    if !c.idleCheck then q
    else if IdleUnset(q.idleStart) then q.(idleStart := Some(now))
    else if now - q.idleStart.value > c.maxIdle then
      if c.hasOnIdle then
        var q1 := q.(idleQueries := q.idleQueries + 1);
        if stopAnswer then q1.(running := false) else q1
      else q.(running := false)
    else q
  }

  /**
   * One pass for a running queue: an item is executed, and idle_start is
   * cleared only when exec returns; an empty poll does the idle handling.
   */
  function PQRunOnceSpec<T>(c: PQConfig, q: PQState<T>, execRaised: Option<Error>, now: real, stopAnswer: bool): PQNext<T>
    requires q.running
  {
    if q.fifo == [] then PQNext(PQEmptyPoll(c, q, now, stopAnswer), None, None)
    else
      var q1 := q.(fifo := q.fifo[1..], executed := q.executed + [q.fifo[0]]);
      if execRaised.None? then PQNext(q1.(idleStart := None), None, None)
      else PQFail(c, q1, execRaised.value)
  }

  // ---------------------------------------------------------------------

  /** An item is taken from the front and executed; idle_start is cleared exactly when exec returned normally. */
  lemma PQItemExecutes<T>(c: PQConfig, q: PQState<T>, execRaised: Option<Error>, now: real, stopAnswer: bool)
    requires q.running && q.fifo != []
    ensures var n := PQRunOnceSpec(c, q, execRaised, now, stopAnswer);
      && n.q.fifo == q.fifo[1..]
      && n.q.executed == q.executed + [q.fifo[0]]
      && (n.q.idleStart == None <==> execRaised.None? || q.idleStart == None)
      && n.q.idleQueries == q.idleQueries
  {
  }

  /** With idle_check off, an empty poll changes nothing. */
  lemma PQNoIdleCheck<T>(c: PQConfig, q: PQState<T>, now: real, stopAnswer: bool)
    requires q.running && q.fifo == [] && !c.idleCheck
    ensures PQRunOnceSpec(c, q, None, now, stopAnswer) == PQNext(q, None, None)
  {
  }

  /** With idle_check on, the first empty poll only records the clock. */
  lemma PQFirstEmptyPollRecords<T>(c: PQConfig, q: PQState<T>, now: real, stopAnswer: bool)
    requires q.running && q.fifo == [] && c.idleCheck && IdleUnset(q.idleStart)
    ensures PQRunOnceSpec(c, q, None, now, stopAnswer) == PQNext(q.(idleStart := Some(now)), None, None)
  {
  }

  /**
   * Past max_idle the loop stops exactly when there is no on_idle or on_idle
   * answers truthy; on_idle is asked once when it exists.
   */
  lemma PQPastMaxIdle<T>(c: PQConfig, q: PQState<T>, now: real, stopAnswer: bool)
    requires q.running && q.fifo == [] && c.idleCheck && !IdleUnset(q.idleStart)
    requires now - q.idleStart.value > c.maxIdle
    ensures var n := PQRunOnceSpec(c, q, None, now, stopAnswer);
      && n.raised == None
      && (!n.q.running <==> !c.hasOnIdle || stopAnswer)
      && n.q.idleQueries == q.idleQueries + (if c.hasOnIdle then 1 else 0)
      && n.q.idleStart == q.idleStart
  {
  }

  /** An on_idle that answers falsy is asked again on the next empty poll that is still past max_idle. */
  lemma PQOnIdleAskedAgain<T>(c: PQConfig, q: PQState<T>, now: real, later: real)
    requires q.running && q.fifo == [] && c.idleCheck && c.hasOnIdle && !IdleUnset(q.idleStart)
    requires now - q.idleStart.value > c.maxIdle && later >= now
    ensures var n1 := PQRunOnceSpec(c, q, None, now, false);
      n1.q.running &&
      var n2 := PQRunOnceSpec(c, n1.q, None, later, false);
      n2.q.running && n2.q.idleQueries == q.idleQueries + 2
  {
  }

  /** Before max_idle has elapsed an empty poll changes nothing. */
  lemma PQWithinMaxIdle<T>(c: PQConfig, q: PQState<T>, now: real, stopAnswer: bool)
    requires q.running && q.fifo == [] && !IdleUnset(q.idleStart) && now - q.idleStart.value <= c.maxIdle
    ensures PQRunOnceSpec(c, q, None, now, stopAnswer) == PQNext(q, None, None)
  {
  }

  /**
   * An exception from exec is appended to errors and put on the error channel
   * when there is one; it stops the loop and is re-raised exactly when
   * raise_again is set; idle_start is left as it was.
   */
  lemma PQExecFailure<T>(c: PQConfig, q: PQState<T>, e: Error, now: real, stopAnswer: bool)
    requires q.running && q.fifo != []
    ensures var n := PQRunOnceSpec(c, q, Some(e), now, stopAnswer);
      && n.q.errors == q.errors + [e]
      && (n.reported.Some? <==> c.hasErrorList) && (c.hasErrorList ==> n.reported == Some(e))
      && (n.q.running <==> !c.raiseAgain)
      && n.raised == (if c.raiseAgain then Some(e) else None)
      && n.q.idleStart == q.idleStart
  {
  }

  // ---------------------------------------------------------------------
  // Several passes.

  datatype PQInput = PQInput(execRaised: Option<Error>, now: real, stopAnswer: bool)

  /** Passes in order while the loop runs; an exception that is re-raised ends the loop. */
  function PQRunPasses<T>(c: PQConfig, q: PQState<T>, inputs: seq<PQInput>): PQNext<T>
    decreases |inputs|
  {
    if inputs == [] || !q.running then PQNext(q, None, None)
    else
      var n := PQRunOnceSpec(c, q, inputs[0].execRaised, inputs[0].now, inputs[0].stopAnswer);
      if n.raised.Some? then n else PQRunPasses(c, n.q, inputs[1..])
  }

  /** FIFO order: k passes over at least k queued items execute the first k, in order, whatever exec raises when raise_again is off. */
  lemma {:induction false} PQExecutesInOrder<T>(c: PQConfig, q: PQState<T>, inputs: seq<PQInput>)
    requires q.running && !c.raiseAgain && |inputs| <= |q.fifo|
    ensures var n := PQRunPasses(c, q, inputs);
      && n.q.running && n.raised == None
      && n.q.executed == q.executed + q.fifo[..|inputs|]
      && n.q.fifo == q.fifo[|inputs|..]
    decreases |inputs|
  {
    if inputs != [] {
      var n1 := PQRunOnceSpec(c, q, inputs[0].execRaised, inputs[0].now, inputs[0].stopAnswer);
      assert n1.q.running && n1.raised == None;
      PQExecutesInOrder(c, n1.q, inputs[1..]);
      assert q.fifo[..|inputs|] == [q.fifo[0]] + q.fifo[1..][..|inputs| - 1];
      assert q.fifo[1..][|inputs| - 1..] == q.fifo[|inputs|..];
    }
  }

  /** With idle_check off, any number of empty polls leaves the queue running and unchanged. */
  lemma {:induction false} PQNeverIdlesOut<T>(c: PQConfig, q: PQState<T>, inputs: seq<PQInput>)
    requires q.running && q.fifo == [] && !c.idleCheck
    ensures PQRunPasses(c, q, inputs) == PQNext(q, None, None)
    decreases |inputs|
  {
    if inputs != [] {
      PQNeverIdlesOut(c, q, inputs[1..]);
    }
  }
}
