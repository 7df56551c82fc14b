/**
 * The ProcessPromise class of prompy/processio/process_promise.py: the same
 * fields as a Promise, with then/catch/resolve/reject/exec overridden.  Each
 * method moves the fields as the matching function of ProcessPromiseSpec says.
 * The serialised form of the starter and callbacks is not modelled; the
 * `now` argument of Exec stands for time.time().
 */
module ProcessPromises {
  import opened Wrappers
  import opened Errors
  import opened Values
  import opened PromiseSpec
  import opened ProcessPromiseSpec

  class ProcessPromise {
    const id: PromiseId
    const raiseAgain: bool
    const bufferSize: nat
    var thens: seq<Callback>
    var catches: seq<Callback>
    var completes: seq<Callback>
    var lastResult: Val
    var results: seq<Val>
    var error: Option<Error>
    var state: PromiseState
    var canceled: bool
    var completedAt: Option<real>
    var trace: seq<Event>
    /** every value ever passed to resolve, oldest first */
    ghost var history: seq<Val>

    ghost predicate Valid()
      reads this
    {
      && results == LastN(history, bufferSize)
      && lastResult == (if history == [] then VNone else history[|history| - 1])
    }

    function Cfg(): Config {
      Config(id, bufferSize, raiseAgain)
    }

    function Snapshot(): PState
      reads this
    {
      PState(thens, catches, completes, lastResult, results, error, state, trace)
    }

    constructor (id: PromiseId, onThen: Option<Callback>, onCatch: Option<Callback>,
                 onComplete: Option<Callback>, raiseAgain: bool, bufferSize: nat)
      ensures Valid()
      ensures this.id == id && this.raiseAgain == raiseAgain && this.bufferSize == bufferSize
      ensures Snapshot() == Initial(onThen, onCatch, onComplete)
      ensures !canceled && completedAt == None && history == []
    {
      this.id := id;
      this.raiseAgain := raiseAgain;
      this.bufferSize := bufferSize;
      var s := Initial(onThen, onCatch, onComplete);
      thens, catches, completes := s.thens, s.catches, s.completes;
      lastResult, results, error, state, trace := VNone, [], None, Pending, [];
      canceled, completedAt := false, None;
      history := [];
    }

    function Result(): (r: Val)
      reads this
      requires Valid()
      ensures r == ResultOf(Snapshot())
      ensures |results| <= 1 && history != [] ==> r == history[|history| - 1]
      ensures |results| > 1 ==> r == VTuple(LastN(history, bufferSize))
    {
      if |results| > 1 then VTuple(results) else lastResult
    }

    method Then(cb: Callback) returns (self: ProcessPromise)
      requires Valid()
      modifies this`thens
      ensures Valid() && self == this
      ensures Snapshot() == PThenSpec(old(Snapshot()), cb)
    {
      thens := thens + [cb];
      self := this;
    }

    method Catch(cb: Callback) returns (self: ProcessPromise)
      requires Valid()
      modifies this`catches
      ensures Valid() && self == this
      ensures Snapshot() == PCatchSpec(old(Snapshot()), cb)
    {
      catches := catches + [cb];
      self := this;
    }

    /** complete(func), inherited from Promise: the callback joins the finally list. */
    method Complete(cb: Callback) returns (self: ProcessPromise)
      requires Valid()
      modifies this`completes
      ensures Valid() && self == this
      ensures Snapshot() == CompleteSpec(old(Snapshot()), cb)
    {
      completes := completes + [cb];
      self := this;
    }

    method Resolve(v: Val) returns (raised: Option<Error>)
      requires Valid()
      modifies this`lastResult, this`results, this`history, this`trace
      ensures Valid() && history == old(history) + [v]
      ensures Next(Snapshot(), raised) == PResolveSpec(Cfg(), old(Snapshot()), v)
    {
      ghost var s0 := Snapshot();
      BufferedKeepsNewest(history, bufferSize, v);
      lastResult := v;
      results := Buffered(results, bufferSize, v);
      history := history + [v];
      assert Valid();
      var evs;
      evs, raised := CallEach(thens, [v]);
      trace := trace + evs;
      assert Snapshot() == s0.(lastResult := v, results := Buffered(s0.results, bufferSize, v), trace := s0.trace + evs);
    }

    method Reject(e: Error) returns (raised: Option<Error>)
      requires Valid()
      modifies this`error, this`trace, this`state
      ensures Valid()
      ensures Next(Snapshot(), raised) == PRejectSpec(Cfg(), old(Snapshot()), e)
    {
      error := Some(e);
      state := Rejected;
      if catches == [] {
        return Some(Unhandled(id, e));
      }
      var evs;
      evs, raised := CallEach(catches, [VError(e)]);
      trace := trace + evs;
    }

    method RunStarterStep(step: Step) returns (raised: Option<Error>)
      requires Valid()
      modifies this`lastResult, this`results, this`history, this`trace, this`state, this`error
      ensures Valid()
      ensures Next(Snapshot(), raised) == PRunStep(Cfg(), old(Snapshot()), step)
    {
      match step
      case ResolveWith(v) => raised := Resolve(v);
      case RejectWith(e) => raised := Reject(e);
      case RaiseError(e) => raised := Some(e);
      case WaitFor(d) => trace := trace + [Waited(d)]; raised := None;
      case TryResolve(call) =>
        if call.Raises? {
          raised := Reject(call.error);
        } else {
          raised := Resolve(call.value);
          if raised.Some? {
            raised := Reject(raised.value);
          }
        }
    }

    /** The try/except part of exec(). */
    method ExecBody(steps: seq<Step>) returns (raised: Option<Error>)
      requires Valid()
      modifies this`lastResult, this`results, this`history, this`trace, this`state, this`error
      ensures Valid()
      ensures Next(Snapshot(), raised) == PExecBody(Cfg(), old(Snapshot()), steps)
    {
      var failure: Option<Error> := None;
      var i := 0;
      while i < |steps| && failure.None?
        invariant 0 <= i <= |steps|
        invariant Valid()
        invariant failure.None? ==>
          PRunSteps(Cfg(), old(Snapshot()), steps) == PRunSteps(Cfg(), Snapshot(), steps[i..])
        invariant failure.Some? ==> PRunSteps(Cfg(), old(Snapshot()), steps) == Next(Snapshot(), failure)
      {
        assert steps[i..][0] == steps[i] && steps[i..][1..] == steps[i + 1..];
        failure := RunStarterStep(steps[i]);
        i := i + 1;
      }
      raised := None;
      if failure.None? {
        state := Fulfilled;
      } else {
        raised := Reject(failure.value);
        if raised.None? && raiseAgain {
          raised := Some(Rejection(id, failure.value));
        }
      }
    }

    /** exec() at time `now`: the try/except part, then the finally block. */
    method Exec(steps: seq<Step>, now: real) returns (raised: Option<Error>)
      requires Valid()
      modifies this`lastResult, this`results, this`history, this`trace, this`state, this`error,
               this`completedAt
      ensures Valid() && completedAt == Some(now)
      ensures Next(Snapshot(), raised) == PExecSpec(Cfg(), old(Snapshot()), steps)
    {
      raised := ExecBody(steps);
      ghost var b := Next(Snapshot(), raised);
      completedAt := Some(now);
      var evs, fromComplete := CallEach(completes, [Result(), ErrorValue(error)]);
      trace := trace + evs;
      if fromComplete.Some? {
        raised := fromComplete;
      }
      assert Next(Snapshot(), raised) == PFinally(b);
    }
  }
}
