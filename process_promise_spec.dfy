/**
 * The overrides of ProcessPromise (prompy/processio/process_promise.py) as
 * pure functions on a promise snapshot.  Serialising and deserialising the
 * starter and the callbacks is the identity here.
 *
 * Differences from the base promise: resolve never finishes the promise (no
 * state change, no complete callback); reject sets the rejected state before
 * it looks for a catch callback and never finishes either; exec marks the
 * promise fulfilled whenever the starter returns, and calls the complete
 * callbacks exactly once, in a `finally`, whatever happened before.
 */
module ProcessPromiseSpec {
  import opened Wrappers
  import opened Errors
  import opened Values
  import opened PromiseSpec

  /** then(func) / catch(func): append only; nothing is called at registration. */
  function PThenSpec(s: PState, cb: Callback): (s': PState)
    ensures s'.thens == s.thens + [cb] && s'.trace == s.trace && s'.state == s.state
  {
    s.(thens := s.thens + [cb])
  }

  function PCatchSpec(s: PState, cb: Callback): (s': PState)
    ensures s'.catches == s.catches + [cb] && s'.trace == s.trace && s'.state == s.state
  {
    s.(catches := s.catches + [cb])
  }

  /** resolve(v): record v and call every then callback with it. */
  function PResolveSpec(c: Config, s: PState, v: Val): Next
    requires |s.results| <= c.bufferSize
  {
    var f := Fire(s.thens, [v]);
    Next(s.(lastResult := v, results := Buffered(s.results, c.bufferSize, v), trace := s.trace + f.events), f.raised)
  }

  /** reject(e): store e, set rejected, then raise when unhandled or call every catch callback. */
  function PRejectSpec(c: Config, s: PState, e: Error): Next
  {
    var s1 := s.(error := Some(e), state := Rejected);
    if s.catches == [] then Next(s1, Some(Unhandled(c.id, e)))
    else
      var f := Fire(s.catches, [VError(e)]);
      Next(s1.(trace := s1.trace + f.events), f.raised)
  }

  function PRunStep(c: Config, s: PState, st: Step): (n: Next)
    requires Bounded(c, s)
    ensures Bounded(c, n.s)
  {
    match st
    case ResolveWith(v) => PResolveSpec(c, s, v)
    case RejectWith(e) => PRejectSpec(c, s, e)
    case RaiseError(e) => Next(s, Some(e))
    case WaitFor(d) => Next(s.(trace := s.trace + [Waited(d)]), None)
    case TryResolve(call) =>
      if call.Raises? then PRejectSpec(c, s, call.error)
      else
        var n := PResolveSpec(c, s, call.value);
        if n.raised.None? then n else PRejectSpec(c, n.s, n.raised.value)
  }

  function PRunSteps(c: Config, s: PState, steps: seq<Step>): (n: Next)
    requires Bounded(c, s)
    ensures Bounded(c, n.s)
    decreases |steps|
  {
    if steps == [] then Next(s, None)
    else
      var n := PRunStep(c, s, steps[0]);
      if n.raised.Some? then n else PRunSteps(c, n.s, steps[1..])
  }

  /** The try/except part of exec: what holds when the `finally` block starts. */
  function PExecBody(c: Config, s: PState, steps: seq<Step>): (n: Next)
    requires Bounded(c, s)
    ensures Bounded(c, n.s)
  {
    var n := PRunSteps(c, s, steps);
    if n.raised.None? then Next(n.s.(state := Fulfilled), None)
    else
      var r := PRejectSpec(c, n.s, n.raised.value);
      if r.raised.Some? then r
      else Next(r.s, if c.raiseAgain then Some(Rejection(c.id, n.raised.value)) else None)
  }

  /** The `finally` block: every complete callback with (result, error); one that raises replaces the pending exception. */
  function PFinally(n: Next): Next
  {
    var f := Fire(n.s.completes, [ResultOf(n.s), ErrorValue(n.s.error)]);
    Next(n.s.(trace := n.s.trace + f.events), if f.raised.Some? then f.raised else n.raised)
  }

  function PExecSpec(c: Config, s: PState, steps: seq<Step>): (n: Next)
    requires Bounded(c, s)
    ensures Bounded(c, n.s)
  {
    PFinally(PExecBody(c, s, steps))
  }

  // ---------------------------------------------------------------------

  /** resolve changes no state and runs no complete callback. */
  lemma {:induction false} PResolveNeverFinishes(c: Config, s: PState, v: Val)
    requires Bounded(c, s)
    ensures var n := PResolveSpec(c, s, v);
      var k := |n.s.trace| - |s.trace|;
      && n.s.state == s.state && n.s.completes == s.completes
      && n.s.lastResult == v
      && 0 <= k <= |s.thens|
      && n.s.trace == s.trace + Invocations(s.thens[..k], [v])
      && (NoneRaise(s.thens) ==> n.raised == None && n.s.trace == s.trace + Invocations(s.thens, [v]))
  {
    FireCalls(s.thens, [v]);
    if NoneRaise(s.thens) {
      FireAll(s.thens, [v]);
    }
  }

  /** reject stores the error and sets rejected before it checks handlers; it raises only without catch callbacks. */
  lemma PRejectSetsStateFirst(c: Config, s: PState, e: Error)
    ensures var n := PRejectSpec(c, s, e);
      && n.s.state == Rejected && n.s.error == Some(e)
      && (s.catches == [] ==> n.raised == Some(Unhandled(c.id, e)) && n.s.trace == s.trace)
      && (s.catches != [] && NoneRaise(s.catches) ==>
            n.raised == None && n.s.trace == s.trace + Invocations(s.catches, [VError(e)]))
  {
    if s.catches != [] && NoneRaise(s.catches) {
      FireAll(s.catches, [VError(e)]);
    }
  }

  /**
   * exec calls every complete callback exactly once, last, with the result and
   * error the try/except part left, even when an exception escapes exec.
   */
  lemma PExecCompletesOnce(c: Config, s: PState, steps: seq<Step>)
    requires Bounded(c, s)
    requires NoneRaise(PExecBody(c, s, steps).s.completes)
    ensures var b := PExecBody(c, s, steps);
      var n := PExecSpec(c, s, steps);
      && n.raised == b.raised
      && n.s == b.s.(trace := b.s.trace + Invocations(b.s.completes, [ResultOf(b.s), ErrorValue(b.s.error)]))
  {
    var b := PExecBody(c, s, steps);
    FireAll(b.s.completes, [ResultOf(b.s), ErrorValue(b.s.error)]);
  }

  /** Whenever the starter returns without raising, exec leaves the promise fulfilled. */
  lemma PExecFulfilsOnReturn(c: Config, s: PState, steps: seq<Step>)
    requires Bounded(c, s)
    requires PRunSteps(c, s, steps).raised.None?
    ensures PExecSpec(c, s, steps).s.state == Fulfilled
  {
  }

  /**
   * In particular a starter that calls reject, handled by a catch callback,
   * still ends fulfilled: the rejected state is overwritten, the error kept.
   */
  lemma PExecOverwritesHandledRejection(c: Config, s: PState, e: Error)
    requires Bounded(c, s)
    requires s.catches != [] && NoneRaise(s.catches)
    ensures var n := PExecSpec(c, s, [RejectWith(e)]);
      n.s.state == Fulfilled && n.s.error == Some(e)
  {
    PRejectSetsStateFirst(c, s, e);
    var r := PRejectSpec(c, s, e);
    assert [RejectWith(e)][1..] == [];
    assert PRunSteps(c, s, [RejectWith(e)]) == PRunSteps(c, r.s, []);
  }

  /** A raising starter without catch callbacks: UnhandledPromiseError escapes, after the complete callbacks ran. */
  lemma PExecUnhandled(c: Config, s: PState, e: Error)
    requires Bounded(c, s)
    requires s.catches == [] && NoneRaise(s.completes)
    ensures var n := PExecSpec(c, s, [RaiseError(e)]);
      && n.raised == Some(Unhandled(c.id, e))
      && n.s.state == Rejected && n.s.error == Some(e)
      && n.s.trace == s.trace + Invocations(s.completes, [ResultOf(s), VError(e)])
  {
    FireAll(s.completes, [ResultOf(s), VError(e)]);
  }
}
