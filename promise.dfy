/**
 * The Promise class of prompy/promise.py.  Its fields are updated in place by
 * then/catch/complete/resolve/reject/exec; each method is proved to move the
 * fields exactly as the matching function of PromiseSpec says, and to keep the
 * class invariant: the buffer holds the newest `bufferSize` resolved values,
 * and the last result is the last value resolved.
 *
 * Exceptions are returned: `raised` is the exception the Python method lets
 * escape, or None when it returns normally.
 */
module Promises {
  import opened Wrappers
  import opened Errors
  import opened Values
  import opened PromiseSpec

  class Promise {
    const id: PromiseId
    const raiseAgain: bool
    const bufferSize: nat
    var thens: seq<Callback>
    var catches: seq<Callback>
    var completes: seq<Callback>
    var lastResult: Val
    var results: seq<Val>
    var error: Option<Error>
    var state: PromiseState
    var canceled: bool
    var completedAt: Option<real>
    var trace: seq<Event>
    /** every value ever passed to resolve, oldest first */
    ghost var history: seq<Val>

    ghost predicate Valid()
      reads this
    {
      && results == LastN(history, bufferSize)
      && lastResult == (if history == [] then VNone else history[|history| - 1])
      && (state == Rejected ==> error.Some?)
    }

    function Cfg(): Config {
      Config(id, bufferSize, raiseAgain)
    }

    function Snapshot(): PState
      reads this
    {
      PState(thens, catches, completes, lastResult, results, error, state, trace)
    }

    /** Promise(starter, then, catch, complete, raise_again, results_buffer_size=bufferSize) */
    constructor (id: PromiseId, onThen: Option<Callback>, onCatch: Option<Callback>,
                 onComplete: Option<Callback>, raiseAgain: bool, bufferSize: nat)
      ensures Valid()
      ensures this.id == id && this.raiseAgain == raiseAgain && this.bufferSize == bufferSize
      ensures Snapshot() == Initial(onThen, onCatch, onComplete)
      ensures !canceled && completedAt == None && history == []
    {
      this.id := id;
      this.raiseAgain := raiseAgain;
      this.bufferSize := bufferSize;
      var s := Initial(onThen, onCatch, onComplete);
      thens, catches, completes := s.thens, s.catches, s.completes;
      lastResult, results, error, state, trace := VNone, [], None, Pending, [];
      canceled, completedAt := false, None;
      history := [];
    }

    /** The `result` property. */
    function Result(): (r: Val)
      reads this
      requires Valid()
      ensures r == ResultOf(Snapshot())
      ensures history == [] ==> r == VNone
      ensures |results| <= 1 && history != [] ==> r == history[|history| - 1]
      ensures |results| > 1 ==> r == VTuple(LastN(history, bufferSize))
    {
      if |results| > 1 then VTuple(results) else lastResult
    }

    method Then(cb: Callback) returns (self: Promise, raised: Option<Error>)
      requires Valid()
      modifies this`thens, this`trace
      ensures Valid() && self == this
      ensures Next(Snapshot(), raised) == ThenSpec(old(Snapshot()), cb)
    {
      thens := thens + [cb];
      raised := None;
      if state == Fulfilled {
        trace := trace + [Invoked(cb.id, [Result()])];
        raised := cb.raises;
      }
      self := this;
    }

    method Catch(cb: Callback) returns (self: Promise, raised: Option<Error>)
      requires Valid()
      modifies this`catches, this`trace
      ensures Valid() && self == this
      ensures Next(Snapshot(), raised) == CatchSpec(old(Snapshot()), cb)
    {
      catches := catches + [cb];
      raised := None;
      if state == Rejected {
        trace := trace + [Invoked(cb.id, [ErrorValue(error)])];
        raised := cb.raises;
      }
      self := this;
    }

    method Complete(cb: Callback) returns (self: Promise)
      requires Valid()
      modifies this`completes
      ensures Valid() && self == this
      ensures Snapshot() == CompleteSpec(old(Snapshot()), cb)
    {
      completes := completes + [cb];
      self := this;
    }

    /** _finish(state) */
    method Finish(st: PromiseState) returns (raised: Option<Error>)
      requires Valid() && (st == Rejected ==> error.Some?)
      modifies this`trace, this`state
      ensures Valid()
      ensures Next(Snapshot(), raised) == FinishSpec(old(Snapshot()), st)
    {
      var evs;
      evs, raised := CallEach(completes, [Result(), ErrorValue(error)]);
      trace := trace + evs;
      if raised.None? {
        state := st;
      }
    }

    method Resolve(v: Val) returns (raised: Option<Error>)
      requires Valid()
      modifies this`lastResult, this`results, this`history, this`trace, this`state
      ensures Valid() && history == old(history) + [v]
      ensures Next(Snapshot(), raised) == ResolveSpec(Cfg(), old(Snapshot()), v)
    {
      Record(v);
      var evs;
      evs, raised := CallEach(thens, [v]);
      trace := trace + evs;
      if raised.None? {
        raised := Finish(Fulfilled);
      }
    }

    /** The first half of resolve(v): remember v as the last result and in the buffer. */
    method Record(v: Val)
      requires Valid()
      modifies this`lastResult, this`results, this`history
      ensures Valid() && history == old(history) + [v]
      ensures Snapshot() == old(Snapshot()).(lastResult := v, results := Buffered(old(results), bufferSize, v))
    {
      BufferedKeepsNewest(history, bufferSize, v);
      lastResult := v;
      results := Buffered(results, bufferSize, v);
      history := history + [v];
    }

    method Reject(e: Error) returns (raised: Option<Error>)
      requires Valid()
      modifies this`error, this`trace, this`state
      ensures Valid()
      ensures Next(Snapshot(), raised) == RejectSpec(Cfg(), old(Snapshot()), e)
    {
      error := Some(e);
      if catches == [] {
        state := Rejected;
        return Some(Unhandled(id, e));
      }
      var evs;
      evs, raised := CallEach(catches, [VError(e)]);
      trace := trace + evs;
      if raised.None? {
        raised := Finish(Rejected);
      }
    }

    /** What one step of the starter does to this promise. */
    method RunStarterStep(step: Step) returns (raised: Option<Error>)
      requires Valid()
      modifies this`lastResult, this`results, this`history, this`trace, this`state, this`error
      ensures Valid()
      ensures Next(Snapshot(), raised) == RunStep(Cfg(), old(Snapshot()), step)
    {
      match step
      case ResolveWith(v) => raised := Resolve(v);
      case RejectWith(e) => raised := Reject(e);
      case RaiseError(e) => raised := Some(e);
      case WaitFor(d) => trace := trace + [Waited(d)]; raised := None;
      case TryResolve(call) =>
        if call.Raises? {
          raised := Reject(call.error);
        } else {
          raised := Resolve(call.value);
          if raised.Some? {
            raised := Reject(raised.value);
          }
        }
    }

    /** exec(), for a starter that performs `steps` when it is called. */
    method Exec(steps: seq<Step>) returns (raised: Option<Error>)
      requires Valid()
      modifies this`lastResult, this`results, this`history, this`trace, this`state, this`error
      ensures Valid()
      ensures Next(Snapshot(), raised) == ExecSpec(Cfg(), old(Snapshot()), steps)
    {
      var failure: Option<Error> := None;
      var i := 0;
      while i < |steps| && failure.None?
        invariant 0 <= i <= |steps|
        invariant Valid()
        invariant failure.None? ==>
          RunSteps(Cfg(), old(Snapshot()), steps) == RunSteps(Cfg(), Snapshot(), steps[i..])
        invariant failure.Some? ==> RunSteps(Cfg(), old(Snapshot()), steps) == Next(Snapshot(), failure)
      {
        assert steps[i..][0] == steps[i] && steps[i..][1..] == steps[i + 1..];
        failure := RunStarterStep(steps[i]);
        i := i + 1;
      }
      raised := None;
      if failure.Some? {
        raised := Reject(failure.value);
        if raised.None? && raiseAgain {
          raised := Some(Rejection(id, failure.value));
        }
      }
    }
  }
}
