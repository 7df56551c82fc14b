/**
 * The promise state machine of prompy/promise.py as pure functions on a
 * snapshot of a promise's fields.  The class in promise.dfy is proved to
 * follow these functions; the lemmas here state what the source promises.
 *
 * Callbacks are opaque ids; every invocation is appended to the promise's
 * event trace as the callback id and its argument list.  A callback either
 * returns (its return value is ignored) or raises a fixed error.
 */
module PromiseSpec {
  import opened Wrappers
  import opened Errors
  import opened Values

  type CallbackId = nat

  /** PromiseState: pending = 1, fulfilled = 2, rejected = 3. */
  datatype PromiseState = Pending | Fulfilled | Rejected

  /** A registered callback: its identity, and the error it raises when invoked, if any. */
  datatype Callback = Callback(id: CallbackId, raises: Option<Error>)

  datatype Event =
      /** the callback `callback` was called with the positional arguments `args` */
    | Invoked(callback: CallbackId, args: seq<Val>)
      /** the wait function was called with `delay` */
    | Waited(delay: real)

  /** What one step of a starter does when the starter is invoked. */
  datatype Step =
      /** resolve(value) */
    | ResolveWith(value: Val)
      /** reject(error) */
    | RejectWith(error: Error)
      /** raise error */
    | RaiseError(error: Error)
      /** try: resolve(func(...)) except Exception as error: reject(error) */
    | TryResolve(call: Outcome)
      /** wait_func(delay) */
    | WaitFor(delay: real)

  /** The constructor arguments that never change afterwards. */
  datatype Config = Config(id: PromiseId, bufferSize: nat, raiseAgain: bool)

  /** The mutable fields of a promise. */
  datatype PState = PState(
    thens: seq<Callback>,
    catches: seq<Callback>,
    completes: seq<Callback>,
    lastResult: Val,
    results: seq<Val>,
    error: Option<Error>,
    state: PromiseState,
    trace: seq<Event>)

  /** The new fields after an operation, and the exception it raised, if any. */
  datatype Next = Next(s: PState, raised: Option<Error>)

  /** The fields of a freshly constructed promise. */
  function Initial(onThen: Option<Callback>, onCatch: Option<Callback>, onComplete: Option<Callback>): (s: PState)
    ensures s.state == Pending && s.error == None && s.results == [] && s.lastResult == VNone && s.trace == []
    ensures |s.thens| <= 1 && |s.catches| <= 1 && |s.completes| <= 1
    ensures onThen.Some? ==> s.thens == [onThen.value]
    ensures onThen.None? <==> s.thens == []
    ensures onCatch.Some? ==> s.catches == [onCatch.value]
    ensures onCatch.None? <==> s.catches == []
    ensures onComplete.Some? ==> s.completes == [onComplete.value]
    ensures onComplete.None? <==> s.completes == []
  {
    PState(
      if onThen.Some? then [onThen.value] else [],
      if onCatch.Some? then [onCatch.value] else [],
      if onComplete.Some? then [onComplete.value] else [],
      VNone, [], None, Pending, [])
  }

  // ---------------------------------------------------------------------
  // Calling a list of callbacks in order.

  datatype Fired = Fired(events: seq<Event>, raised: Option<Error>)

  /** Calls each callback in order with `args`; the first one that raises stops the loop. */
  function Fire(cbs: seq<Callback>, args: seq<Val>): Fired
  {
    if cbs == [] then Fired([], None)
    else
      var ev := Invoked(cbs[0].id, args);
      if cbs[0].raises.Some? then Fired([ev], cbs[0].raises)
      else
        var rest := Fire(cbs[1..], args);
        Fired([ev] + rest.events, rest.raised)
  }

  /** The invocations of every callback of `cbs`, in order, with `args`. */
  function Invocations(cbs: seq<Callback>, args: seq<Val>): (evs: seq<Event>)
    ensures |evs| == |cbs|
    ensures forall i :: 0 <= i < |cbs| ==> evs[i] == Invoked(cbs[i].id, args)
  {
    if cbs == [] then [] else [Invoked(cbs[0].id, args)] + Invocations(cbs[1..], args)
  }

  predicate NoneRaise(cbs: seq<Callback>) {
    forall i :: 0 <= i < |cbs| ==> cbs[i].raises.None?
  }

  /**
   * Fire calls the callbacks in order up to and including the first one that
   * raises, and passes that error on; when none raises it calls all of them.
   */
  lemma {:induction false} FireCalls(cbs: seq<Callback>, args: seq<Val>)
    ensures var f := Fire(cbs, args);
      && |f.events| <= |cbs|
      && f.events == Invocations(cbs[..|f.events|], args)
      && (f.raised.None? <==> NoneRaise(cbs))
      && (f.raised.None? ==> |f.events| == |cbs|)
      && (f.raised.Some? ==>
            && |f.events| > 0
            && cbs[|f.events| - 1].raises == f.raised
            && NoneRaise(cbs[..|f.events| - 1]))
  {
    if cbs != [] && cbs[0].raises.None? {
      FireCalls(cbs[1..], args);
      var f, r := Fire(cbs, args), Fire(cbs[1..], args);
      assert cbs[..|f.events|] == [cbs[0]] + cbs[1..][..|r.events|];
      if r.raised.Some? {
        assert cbs[..|f.events| - 1] == [cbs[0]] + cbs[1..][..|r.events| - 1];
      } else {
        assert cbs[..|f.events|] == cbs;
      }
      assert NoneRaise(cbs) <==> NoneRaise(cbs[1..]) by {
        assert forall i :: 0 < i < |cbs| ==> cbs[i] == cbs[1..][i - 1];
      }
    }
  }

  /** When no callback raises, each is called exactly once, in registration order. */
  lemma FireAll(cbs: seq<Callback>, args: seq<Val>)
    requires NoneRaise(cbs)
    ensures Fire(cbs, args) == Fired(Invocations(cbs, args), None)
  {
    FireCalls(cbs, args);
    assert cbs[..|cbs|] == cbs;
  }

  /** The `for c in callbacks: c(*args)` loop, run on its own: the events it produces and what it raised. */
  method CallEach(cbs: seq<Callback>, args: seq<Val>) returns (events: seq<Event>, raised: Option<Error>)
    ensures Fired(events, raised) == Fire(cbs, args)
  {
    events := [];
    var i := 0;
    while i < |cbs|
      invariant 0 <= i <= |cbs|
      invariant Fire(cbs, args) == Fired(events + Fire(cbs[i..], args).events, Fire(cbs[i..], args).raised)
    {
      assert cbs[i..][1..] == cbs[i + 1..];
      events := events + [Invoked(cbs[i].id, args)];
      if cbs[i].raises.Some? {
        return events, cbs[i].raises;
      }
      i := i + 1;
    }
    return events, None;
  }

  // ---------------------------------------------------------------------
  // The results buffer: a deque with maxlen = results_buffer_size.

  /** deque.append on a deque bounded by `cap`: the oldest entry goes first when full. */
  function Buffered(buf: seq<Val>, cap: nat, v: Val): (r: seq<Val>)
    requires |buf| <= cap
    ensures |r| <= cap
    ensures |r| == if |buf| < cap then |buf| + 1 else cap
    ensures cap > 0 ==> r[|r| - 1] == v
    ensures r == (buf + [v])[|buf| + 1 - |r|..]
  {
    var s := buf + [v];
    if |s| <= cap then s else s[|s| - cap..]
  }

  /** The last `cap` entries of a history. */
  function LastN(h: seq<Val>, cap: nat): (r: seq<Val>)
    ensures |r| <= cap
  {
    if |h| <= cap then h else h[|h| - cap..]
  }

  /** The buffer always holds the newest `cap` of all values ever resolved. */
  lemma BufferedKeepsNewest(h: seq<Val>, cap: nat, v: Val)
    ensures Buffered(LastN(h, cap), cap, v) == LastN(h + [v], cap)
  {
    var b := LastN(h, cap);
    if |h| + 1 > cap {
      assert (h + [v])[|h| + 1 - cap..] == (b + [v])[|b| + 1 - cap..];
    }
  }

  /** The `result` property: the buffered tuple once more than one value is buffered. */
  function ResultOf(s: PState): Val
  {
    if |s.results| > 1 then VTuple(s.results) else s.lastResult
  }

  // ---------------------------------------------------------------------
  // The operations of prompy/promise.py.

  /** then(func): append, and call it at once with the current result when fulfilled. */
  function ThenSpec(s: PState, cb: Callback): (n: Next)
    ensures n.s.thens == s.thens + [cb]
    ensures n.s == s.(thens := s.thens + [cb], trace := n.s.trace)
    ensures s.state == Fulfilled ==>
      n.s.trace == s.trace + [Invoked(cb.id, [ResultOf(s)])] && n.raised == cb.raises
    ensures s.state != Fulfilled ==> n.s.trace == s.trace && n.raised == None
  {
    var s1 := s.(thens := s.thens + [cb]);
    if s.state == Fulfilled then
      Next(s1.(trace := s1.trace + [Invoked(cb.id, [ResultOf(s)])]), cb.raises)
    else Next(s1, None)
  }

  /** catch(func): append, and call it at once with the current error when rejected. */
  function CatchSpec(s: PState, cb: Callback): (n: Next)
    ensures n.s.catches == s.catches + [cb]
    ensures n.s == s.(catches := s.catches + [cb], trace := n.s.trace)
    ensures s.state == Rejected ==>
      n.s.trace == s.trace + [Invoked(cb.id, [ErrorValue(s.error)])] && n.raised == cb.raises
    ensures s.state != Rejected ==> n.s.trace == s.trace && n.raised == None
  {
    var s1 := s.(catches := s.catches + [cb]);
    if s.state == Rejected then
      Next(s1.(trace := s1.trace + [Invoked(cb.id, [ErrorValue(s.error)])]), cb.raises)
    else Next(s1, None)
  }

  /** complete(func): only appends; it is never called at registration. */
  function CompleteSpec(s: PState, cb: Callback): (s': PState)
    ensures s'.completes == s.completes + [cb]
    ensures s'.trace == s.trace && s'.state == s.state
  {
    s.(completes := s.completes + [cb])
  }

  /** _finish(state): every complete callback gets (result, error), then the state is set. */
  function FinishSpec(s: PState, st: PromiseState): Next
  {
    var f := Fire(s.completes, [ResultOf(s), ErrorValue(s.error)]);
    var s1 := s.(trace := s.trace + f.events);
    if f.raised.Some? then Next(s1, f.raised) else Next(s1.(state := st), None)
  }

  /** resolve(v): record v, call every then callback with v, then _finish(fulfilled). */
  function ResolveSpec(c: Config, s: PState, v: Val): Next
    requires |s.results| <= c.bufferSize
  {
    var s1 := s.(lastResult := v, results := Buffered(s.results, c.bufferSize, v));
    var f := Fire(s.thens, [v]);
    var s2 := s1.(trace := s1.trace + f.events);
    if f.raised.Some? then Next(s2, f.raised) else FinishSpec(s2, Fulfilled)
  }

  /** reject(e): record e; unhandled without catch callbacks, else call them and _finish(rejected). */
  function RejectSpec(c: Config, s: PState, e: Error): Next
  {
    var s1 := s.(error := Some(e));
    if s.catches == [] then
      Next(s1.(state := Rejected), Some(Unhandled(c.id, e)))
    else
      var f := Fire(s.catches, [VError(e)]);
      var s2 := s1.(trace := s1.trace + f.events);
      if f.raised.Some? then Next(s2, f.raised) else FinishSpec(s2, Rejected)
  }

  /** No operation changes the callback lists but registration, and the buffer stays bounded. */
  predicate Bounded(c: Config, s: PState) {
    |s.results| <= c.bufferSize
  }

  lemma FinishKeeps(s: PState, st: PromiseState)
    ensures var n := FinishSpec(s, st);
      n.s.results == s.results && n.s.thens == s.thens && n.s.catches == s.catches
      && n.s.completes == s.completes && n.s.error == s.error && n.s.lastResult == s.lastResult
  {
  }

  /** One step of a starter, applied to the promise it was given. */
  function RunStep(c: Config, s: PState, st: Step): (n: Next)
    requires Bounded(c, s)
    ensures Bounded(c, n.s)
  {
    match st
    case ResolveWith(v) => ResolveSpec(c, s, v)
    case RejectWith(e) => RejectSpec(c, s, e)
    case RaiseError(e) => Next(s, Some(e))
    case WaitFor(d) => Next(s.(trace := s.trace + [Waited(d)]), None)
    case TryResolve(call) =>
      if call.Raises? then RejectSpec(c, s, call.error)
      else
        var n := ResolveSpec(c, s, call.value);
        if n.raised.None? then n else RejectSpec(c, n.s, n.raised.value)
  }

  /** The starter: its steps in order, until one raises. */
  function RunSteps(c: Config, s: PState, steps: seq<Step>): (n: Next)
    requires Bounded(c, s)
    ensures Bounded(c, n.s)
    decreases |steps|
  {
    if steps == [] then Next(s, None)
    else
      var n := RunStep(c, s, steps[0]);
      if n.raised.Some? then n else RunSteps(c, n.s, steps[1..])
  }

  /** exec(): run the starter; any exception goes to reject, and is re-raised wrapped with raise_again. */
  function ExecSpec(c: Config, s: PState, steps: seq<Step>): (n: Next)
    requires Bounded(c, s)
    ensures Bounded(c, n.s)
  {
    var n := RunSteps(c, s, steps);
    if n.raised.None? then n
    else
      var r := RejectSpec(c, n.s, n.raised.value);
      if r.raised.Some? then r
      else if c.raiseAgain then Next(r.s, Some(Rejection(c.id, n.raised.value)))
      else r
  }

  // ---------------------------------------------------------------------
  // What the source promises about these operations.

  /**
   * Every resolve(v), whatever the state: v becomes the last result and enters
   * the bounded buffer, every then callback is called with v in order, every
   * complete callback with (result, error), and the promise ends fulfilled.
   */
  lemma ResolveFiresAll(c: Config, s: PState, v: Val)
    requires Bounded(c, s)
    requires NoneRaise(s.thens) && NoneRaise(s.completes)
    ensures var n := ResolveSpec(c, s, v);
      var b := Buffered(s.results, c.bufferSize, v);
      var after := s.(lastResult := v, results := b);
      && n.raised == None
      && n.s.state == Fulfilled
      && n.s.lastResult == v
      && n.s.results == b
      && n.s.error == s.error
      && n.s.trace == s.trace + Invocations(s.thens, [v])
                      + Invocations(s.completes, [ResultOf(after), ErrorValue(s.error)])
  {
    FireAll(s.thens, [v]);
    var b := Buffered(s.results, c.bufferSize, v);
    var s2 := s.(lastResult := v, results := b, trace := s.trace + Invocations(s.thens, [v]));
    FireAll(s2.completes, [ResultOf(s2), ErrorValue(s2.error)]);
  }

  /** A then callback that raises stops resolve: no complete callback runs and the state is kept. */
  lemma ResolveStopsAtRaisingThen(c: Config, s: PState, v: Val)
    requires Bounded(c, s)
    requires !NoneRaise(s.thens)
    ensures var n := ResolveSpec(c, s, v);
      n.raised.Some? && n.s.state == s.state && n.s.lastResult == v
      && n.s.trace == s.trace + Fire(s.thens, [v]).events
  {
    FireCalls(s.thens, [v]);
  }

  /** reject(e) without catch callbacks: e is stored, the state is rejected and UnhandledPromiseError is raised; nothing is called. */
  lemma RejectUnhandled(c: Config, s: PState, e: Error)
    requires s.catches == []
    ensures RejectSpec(c, s, e) == Next(s.(error := Some(e), state := Rejected), Some(Unhandled(c.id, e)))
  {
  }

  /**
   * reject(e) with catch callbacks: each is called with e in order, then every
   * complete callback with (result, e); the state ends rejected, even when it
   * was fulfilled before, and nothing is raised.
   */
  lemma RejectHandled(c: Config, s: PState, e: Error)
    requires s.catches != []
    requires NoneRaise(s.catches) && NoneRaise(s.completes)
    ensures var n := RejectSpec(c, s, e);
      && n.raised == None
      && n.s.state == Rejected
      && n.s.error == Some(e)
      && n.s.results == s.results && n.s.lastResult == s.lastResult
      && n.s.trace == s.trace + Invocations(s.catches, [VError(e)])
                      + Invocations(s.completes, [ResultOf(s), VError(e)])
  {
    FireAll(s.catches, [VError(e)]);
    FireAll(s.completes, [ResultOf(s), VError(e)]);
  }

  /** The state is not monotonic: a handled reject after a resolve flips it, and a resolve flips it back. */
  lemma StateFlips(c: Config, s: PState, v: Val, e: Error)
    requires Bounded(c, s)
    requires s.catches != []
    requires NoneRaise(s.thens) && NoneRaise(s.catches) && NoneRaise(s.completes)
    ensures var n1 := ResolveSpec(c, s, v);
      var n2 := RejectSpec(c, n1.s, e);
      var n3 := ResolveSpec(c, n2.s, v);
      n1.s.state == Fulfilled && n2.s.state == Rejected && n3.s.state == Fulfilled
      && n3.s.error == Some(e)
  {
    ResolveFiresAll(c, s, v);
    var n1 := ResolveSpec(c, s, v);
    FinishKeeps(n1.s, Fulfilled);
    assert n1.s.thens == s.thens && n1.s.catches == s.catches && n1.s.completes == s.completes by {
      FireCalls(s.thens, [v]);
    }
    RejectHandled(c, n1.s, e);
    var n2 := RejectSpec(c, n1.s, e);
    assert n2.s.thens == s.thens && n2.s.completes == s.completes by {
      FireAll(n1.s.catches, [VError(e)]);
      FinishKeeps(n1.s.(error := Some(e), trace := n1.s.trace + Invocations(n1.s.catches, [VError(e)])), Rejected);
    }
    ResolveFiresAll(c, n2.s, v);
  }

  /**
   * exec(): an exception from the starter (including one from a then callback
   * inside resolve) goes to reject; with a catch callback that handles it,
   * exec raises PromiseRejectionError exactly when raise_again is set.
   */
  lemma ExecRejectsStarterError(c: Config, s: PState, steps: seq<Step>)
    requires Bounded(c, s)
    requires RunSteps(c, s, steps).raised.Some?
    requires var m := RunSteps(c, s, steps).s; m.catches != [] && NoneRaise(m.catches) && NoneRaise(m.completes)
    ensures var e := RunSteps(c, s, steps).raised.value;
      var n := ExecSpec(c, s, steps);
      && n.s.error == Some(e)
      && n.s.state == Rejected
      && n.raised == (if c.raiseAgain then Some(Rejection(c.id, e)) else None)
  {
    var m := RunSteps(c, s, steps);
    RejectHandled(c, m.s, m.raised.value);
  }

  /** Without catch callbacks, UnhandledPromiseError escapes exec whatever raise_again says. */
  lemma ExecUnhandledEscapes(c: Config, s: PState, steps: seq<Step>)
    requires Bounded(c, s)
    requires RunSteps(c, s, steps).raised.Some? && RunSteps(c, s, steps).s.catches == []
    ensures var e := RunSteps(c, s, steps).raised.value;
      ExecSpec(c, s, steps).raised == Some(Unhandled(c.id, e))
  {
  }

  /**
   * A starter that calls reject on a promise without catch callbacks makes
   * reject run twice: the stored error becomes the first UnhandledPromiseError
   * and a second one, wrapping it, escapes exec.
   */
  lemma ExecDoubleReject(c: Config, s: PState, e: Error)
    requires Bounded(c, s) && s.catches == []
    ensures var n := ExecSpec(c, s, [RejectWith(e)]);
      && n.s.error == Some(Unhandled(c.id, e))
      && n.s.state == Rejected
      && n.raised == Some(Unhandled(c.id, Unhandled(c.id, e)))
      && n.s.trace == s.trace
  {
  }

  /** A starter that only resolves, with callbacks that never raise, leaves exec silent and the promise fulfilled. */
  lemma {:induction false} ResolveAllQuiet(c: Config, s: PState, vs: seq<Val>)
    requires Bounded(c, s) && |vs| > 0
    requires NoneRaise(s.thens) && NoneRaise(s.completes)
    ensures var n := ExecSpec(c, s, ResolveAll(vs));
      && n == RunSteps(c, s, ResolveAll(vs))
      && n.raised == None && n.s.state == Fulfilled && n.s.lastResult == vs[|vs| - 1]
      && n.s.thens == s.thens && n.s.completes == s.completes && n.s.catches == s.catches
    decreases |vs|
  {
    ResolveFiresAll(c, s, vs[0]);
    var n1 := ResolveSpec(c, s, vs[0]);
    assert n1.s.thens == s.thens && n1.s.completes == s.completes && n1.s.catches == s.catches by {
      FireAll(s.thens, [vs[0]]);
    }
    assert ResolveAll(vs)[1..] == ResolveAll(vs[1..]);
    if |vs| > 1 {
      ResolveAllQuiet(c, n1.s, vs[1..]);
    } else {
      assert ResolveAll(vs)[1..] == [];
    }
  }

  /** A starter that resolves each value in turn. */
  function ResolveAll(vs: seq<Val>): (steps: seq<Step>)
    ensures |steps| == |vs|
    ensures forall i :: 0 <= i < |vs| ==> steps[i] == ResolveWith(vs[i])
  {
    seq(|vs|, i requires 0 <= i < |vs| => ResolveWith(vs[i]))
  }
}
