/**
 * The promise combinators of prompy/promtools.py and prompy/promutils.py.
 *
 * promise_wrap, later and piter only build starters; here a starter is the
 * script of steps it performs (PromiseSpec.Step).  `_AllPromiseWrap` is a
 * counter/flag object behind pall: its `then`/`catch` are registered on every
 * input promise, and its `__call__` is the combined promise's starter.  The
 * two files differ only in `__call__` (Flavor).
 *
 * The resolve and reject functions the wrap stores are the combined
 * promise's; a call to them is returned as a Forward and applied by Deliver.
 */
module PromTools {
  import opened Wrappers
  import opened Errors
  import opened Values
  import opened PromiseSpec
  import opened Promises

  // ---------------------------------------------------------------------
  // Starter builders.

  /** promise_wrap(func)(*args): `try: resolve(func(*args)) except Exception as error: reject(error)`. */
  function PromiseWrap(call: Outcome): (steps: seq<Step>)
    ensures |steps| == 1 && steps[0].TryResolve? && steps[0].call == call
  {
    [TryResolve(call)]
  }

  /**
   * later(func, delay, wait_func)(*args): wait_func(delay), then the
   * promise_wrap starter.  `wait` is what wait_func(delay) raises, if
   * anything; it is called outside the try, so its error ends the starter.
   */
  function Later(delay: real, wait: Option<Error>, call: Outcome): (steps: seq<Step>)
    ensures wait.None? ==> steps == [WaitFor(delay)] + PromiseWrap(call)
    ensures wait.Some? ==> steps == [WaitFor(delay), RaiseError(wait.value)]
  {
    if wait.Some? then [WaitFor(delay), RaiseError(wait.value)] else [WaitFor(delay), TryResolve(call)]
  }

  /** piter(iterable, func): `resolve(func(i))` for each element; a raising func(i) ends the starter. */
  function PiterStep(o: Outcome): Step {
    if o.Returns? then ResolveWith(o.value) else RaiseError(o.error)
  }

  function Piter(outcomes: seq<Outcome>): (steps: seq<Step>)
    ensures |steps| == |outcomes|
    ensures forall i :: 0 <= i < |outcomes| ==> steps[i] == PiterStep(outcomes[i])
  {
    seq(|outcomes|, i requires 0 <= i < |outcomes| => PiterStep(outcomes[i]))
  }

  /** The then invocations of resolving each of `vs` in turn. */
  function ResolveTrace(thens: seq<Callback>, vs: seq<Val>): seq<Event>
  {
    if vs == [] then [] else Invocations(thens, [vs[0]]) + ResolveTrace(thens, vs[1..])
  }

  /**
   * promise_wrap's exec, with catch callbacks that return: a raising func
   * rejects with its error; a returning func resolves with its value, unless
   * a then callback raises, which rejects with that callback's error.
   */
  lemma PromiseWrapOutcome(c: Config, s: PState, call: Outcome)
    requires Bounded(c, s) && !c.raiseAgain
    requires s.catches != [] && NoneRaise(s.catches) && NoneRaise(s.completes)
    ensures var n := ExecSpec(c, s, PromiseWrap(call));
      && n.raised == None
      && (call.Raises? ==> n.s.state == Rejected && n.s.error == Some(call.error))
      && (call.Returns? && NoneRaise(s.thens) ==> n.s.state == Fulfilled && n.s.lastResult == call.value)
      && (call.Returns? && !NoneRaise(s.thens) ==>
            n.s.state == Rejected && n.s.error == Fire(s.thens, [call.value]).raised && n.s.lastResult == call.value)
  {
    assert PromiseWrap(call)[1..] == [];
    assert RunSteps(c, s, PromiseWrap(call)) == RunStep(c, s, TryResolve(call));
    if call.Raises? {
      RejectHandled(c, s, call.error);
    } else {
      var v := call.value;
      if NoneRaise(s.thens) {
        ResolveFiresAll(c, s, v);
      } else {
        ResolveStopsAtRaisingThen(c, s, v);
        var m := ResolveSpec(c, s, v);
        FireCalls(s.thens, [v]);
        RejectHandled(c, m.s, m.raised.value);
      }
    }
  }

  /** later calls wait_func(delay) once, then behaves exactly like promise_wrap. */
  lemma LaterWaitsOnce(c: Config, s: PState, delay: real, call: Outcome)
    requires Bounded(c, s)
    ensures ExecSpec(c, s, Later(delay, None, call)) == ExecSpec(c, s.(trace := s.trace + [Waited(delay)]), PromiseWrap(call))
  {
    var s1 := s.(trace := s.trace + [Waited(delay)]);
    assert Later(delay, None, call)[1..] == PromiseWrap(call);
    assert RunSteps(c, s, Later(delay, None, call)) == RunSteps(c, s1, PromiseWrap(call));
  }

  /**
   * A wait_func that raises e: func is never called, whatever it would do,
   * and exec rejects the promise with e.
   */
  lemma LaterWaitRaises(c: Config, s: PState, delay: real, e: Error, call: Outcome, other: Outcome)
    requires Bounded(c, s)
    ensures var n := ExecSpec(c, s, Later(delay, Some(e), call));
      && n.s == RejectSpec(c, s.(trace := s.trace + [Waited(delay)]), e).s
      && n == ExecSpec(c, s, Later(delay, Some(e), other))
  {
    var s1 := s.(trace := s.trace + [Waited(delay)]);
    assert Later(delay, Some(e), call)[1..] == [RaiseError(e)];
    assert RunSteps(c, s1, [RaiseError(e)]) == Next(s1, Some(e));
    assert RunSteps(c, s, Later(delay, Some(e), call)) == Next(s1, Some(e));
  }

  /** piter over values that all return is resolve of each value in turn. */
  lemma PiterIsResolveAll(vs: seq<Val>)
    ensures Piter(seq(|vs|, i requires 0 <= i < |vs| => Returns(vs[i]))) == ResolveAll(vs)
  {
  }

  /** resolve(v) with then callbacks that return and no complete callback. */
  lemma ResolveWithoutCompletes(c: Config, s: PState, v: Val)
    requires Bounded(c, s) && NoneRaise(s.thens) && s.completes == []
    ensures var n := ResolveSpec(c, s, v);
      && n.raised == None && n.s.state == Fulfilled && n.s.lastResult == v
      && n.s.trace == s.trace + Invocations(s.thens, [v])
      && n.s.thens == s.thens && n.s.completes == []
  {
    FireAll(s.thens, [v]);
  }

  /** The first step of resolving a sequence of values, when it does not raise. */
  lemma ResolveAllUnfold(c: Config, s: PState, vs: seq<Val>)
    requires Bounded(c, s) && vs != [] && ResolveSpec(c, s, vs[0]).raised.None?
    ensures RunSteps(c, s, ResolveAll(vs)) == RunSteps(c, ResolveSpec(c, s, vs[0]).s, ResolveAll(vs[1..]))
  {
    assert ResolveAll(vs)[0] == ResolveWith(vs[0]);
    assert ResolveAll(vs)[1..] == ResolveAll(vs[1..]);
  }

  /**
   * piter resolves once per element, in iteration order: with then callbacks
   * that return and no complete callback, the trace gets every then callback
   * for the first element, then for the second, and so on.  (That nothing
   * is raised and the promise ends fulfilled with the last value is
   * PromiseSpec.ResolveAllQuiet.)
   */
  lemma {:induction false} PiterResolvesInOrder(c: Config, s: PState, vs: seq<Val>)
    requires Bounded(c, s) && NoneRaise(s.thens) && s.completes == []
    ensures RunSteps(c, s, ResolveAll(vs)).s.trace == s.trace + ResolveTrace(s.thens, vs)
    decreases |vs|
  {
    if vs != [] {
      ResolveWithoutCompletes(c, s, vs[0]);
      ResolveAllUnfold(c, s, vs);
      var s1 := ResolveSpec(c, s, vs[0]).s;
      PiterResolvesInOrder(c, s1, vs[1..]);
      ResolveTraceCons(s.trace, s1.trace, RunSteps(c, s1, ResolveAll(vs[1..])).s.trace, s.thens, vs);
    }
  }

  lemma ResolveTraceCons(t0: seq<Event>, t1: seq<Event>, t2: seq<Event>, thens: seq<Callback>, vs: seq<Val>)
    requires vs != [] && t1 == t0 + Invocations(thens, [vs[0]]) && t2 == t1 + ResolveTrace(thens, vs[1..])
    ensures t2 == t0 + ResolveTrace(thens, vs)
  {
    var a, b := Invocations(thens, [vs[0]]), ResolveTrace(thens, vs[1..]);
    assert ResolveTrace(thens, vs) == a + b;
    Regroup(t0, a, b);
  }

  lemma Regroup(x: seq<Event>, y: seq<Event>, z: seq<Event>)
    ensures (x + y) + z == x + (y + z)
  {
  }

  /** piter's starter loop, run against promise p: each element's value is resolved in turn. */
  method RunPiter(p: Promise, outcomes: seq<Outcome>) returns (raised: Option<Error>)
    requires p.Valid()
    modifies p`lastResult, p`results, p`history, p`trace, p`state, p`error
    ensures p.Valid()
    ensures Next(p.Snapshot(), raised) == RunSteps(p.Cfg(), old(p.Snapshot()), Piter(outcomes))
  {
    raised := None;
    var i := 0;
    while i < |outcomes|
      invariant 0 <= i <= |outcomes| && p.Valid() && raised == None
      invariant RunSteps(p.Cfg(), old(p.Snapshot()), Piter(outcomes)) == RunSteps(p.Cfg(), p.Snapshot(), Piter(outcomes[i..]))
    {
      assert Piter(outcomes[i..])[0] == PiterStep(outcomes[i]);
      assert Piter(outcomes[i..])[1..] == Piter(outcomes[i + 1..]);
      ghost var before := p.Snapshot();
      if outcomes[i].Raises? {
        return Some(outcomes[i].error);
      }
      raised := p.Resolve(outcomes[i].value);
      assert RunStep(p.Cfg(), before, PiterStep(outcomes[i])) == Next(p.Snapshot(), raised);
      if raised.Some? {
        return;
      }
      i := i + 1;
    }
  }

  // ---------------------------------------------------------------------
  // _AllPromiseWrap.

  /** Which `__call__`: prompy/promtools.py or prompy/promutils.py. */
  datatype Flavor = Tools | Utils

  datatype AllState = AllState(
    num: nat,
    res: nat,
    rejected: bool,
    results: seq<Val>,
    /** `self._resolve` / `self._reject` have been set by `__call__` */
    started: bool)

  /** A call the wrap makes to the combined promise's resolve or reject. */
  datatype Forward = NoForward | ForwardResolve(values: seq<Val>) | ForwardReject(error: Error)

  datatype AllNext = AllNext(a: AllState, forward: Forward)

  function AllInit(num: nat): AllState {
    AllState(num, 0, false, [], false)
  }

  /** then(result): count it; keep it and maybe forward while not rejected. */
  function AllThen(a: AllState, v: Val): AllNext {
    var a1 := a.(res := a.res + 1);
    if a.rejected then AllNext(a1, NoForward)
    else
      var a2 := a1.(results := a.results + [v]);
      AllNext(a2, if a2.res == a.num && a.started then ForwardResolve(a2.results) else NoForward)
  }

  /** catch(err): rejected for good; forward once the starter has run. */
  function AllCatch(a: AllState, e: Error): AllNext {
    AllNext(a.(rejected := true), if a.started then ForwardReject(e) else NoForward)
  }

  /** What `__call__` reads of an input promise. */
  datatype InputView = InputView(state: PromiseState, result: Val, error: Option<Error>)

  function CountState(vs: seq<InputView>, st: PromiseState): (k: nat)
    ensures k <= |vs|
  {
    if vs == [] then 0 else (if vs[0].state == st then 1 else 0) + CountState(vs[1..], st)
  }

  function ResultsOf(vs: seq<InputView>): (rs: seq<Val>)
    ensures |rs| == |vs| && forall i :: 0 <= i < |vs| ==> rs[i] == vs[i].result
  {
    if vs == [] then [] else [vs[0].result] + ResultsOf(vs[1..])
  }

  const AllReject: Error := Exception("Promise all reject")

  /** The starter's effect on the combined promise, case by case as `__call__` tests them. */
  function AllCallScript(f: Flavor, a: AllState, vs: seq<InputView>): seq<Step>
    requires |vs| == a.num
  {
    if !a.rejected && a.num == a.res then [ResolveWith(VList(a.results))]
    else if f == Utils then
      // sum(1 for x in self.promises if x.resolved): a Promise has no `resolved`
      if vs == [] then [ResolveWith(VList([]))] else [RaiseError(AttributeError("resolved"))]
    else if CountState(vs, Fulfilled) == a.num then [ResolveWith(VList(ResultsOf(vs)))]
    else if a.rejected || CountState(vs, Rejected) > 0 then [RejectWith(AllReject)]
    else []
  }

  /** Counting fulfilled (rejected) inputs is testing whether all (some) are. */
  lemma {:induction false} CountStateMeans(vs: seq<InputView>, st: PromiseState)
    ensures CountState(vs, st) == |vs| <==> forall i :: 0 <= i < |vs| ==> vs[i].state == st
    ensures CountState(vs, st) > 0 <==> exists i :: 0 <= i < |vs| && vs[i].state == st
  {
    if vs != [] {
      CountStateMeans(vs[1..], st);
      assert forall i :: 0 < i < |vs| ==> vs[i] == vs[1..][i - 1];
      if CountState(vs[1..], st) > 0 {
        var j :| 0 <= j < |vs[1..]| && vs[1..][j].state == st;
        assert vs[j + 1].state == st;
      }
    }
  }

  /** then counts every call and keeps the result only while not rejected; catch keeps the counters. */
  lemma AllThenCounts(a: AllState, v: Val, e: Error)
    ensures var n := AllThen(a, v);
      && n.a.res == a.res + 1 && n.a.num == a.num && n.a.started == a.started && n.a.rejected == a.rejected
      && n.a.results == a.results + (if a.rejected then [] else [v])
    ensures var n := AllCatch(a, e);
      n.a.rejected && n.a.res == a.res && n.a.results == a.results && n.a.started == a.started
  {
  }

  /** then resolves the combined promise exactly when the count reaches num_promises, not rejected, after the starter ran. */
  lemma AllThenForwards(a: AllState, v: Val)
    ensures var n := AllThen(a, v);
      && !n.forward.ForwardReject?
      && (n.forward.ForwardResolve? <==> !a.rejected && a.res + 1 == a.num && a.started)
      && (n.forward.ForwardResolve? ==> n.forward.values == a.results + [v])
  {
  }

  /** catch forwards the error only once the starter has run. */
  lemma AllCatchForwards(a: AllState, e: Error)
    ensures AllCatch(a, e).forward == (if a.started then ForwardReject(e) else NoForward)
  {
  }

  /** The events an _AllPromiseWrap receives. */
  datatype WrapEvent = OnThen(value: Val) | OnCatch(error: Error) | OnCall

  function RunWrap(a: AllState, evs: seq<WrapEvent>): AllState
    decreases |evs|
  {
    if evs == [] then a
    else
      var a1 := match evs[0]
        case OnThen(v) => AllThen(a, v).a
        case OnCatch(e) => AllCatch(a, e).a
        case OnCall => a.(started := true);
      RunWrap(a1, evs[1..])
  }

  /** No event clears `rejected`; num_promises never changes and `res` never goes down. */
  lemma {:induction false} RejectedIsPermanent(a: AllState, evs: seq<WrapEvent>)
    ensures var r := RunWrap(a, evs);
      (a.rejected ==> r.rejected) && r.num == a.num && r.res >= a.res
    decreases |evs|
  {
    if evs != [] {
      var a1 := match evs[0]
        case OnThen(v) => AllThen(a, v).a
        case OnCatch(e) => AllCatch(a, e).a
        case OnCall => a.(started := true);
      RejectedIsPermanent(a1, evs[1..]);
    }
  }

  function Thens(vs: seq<Val>): (evs: seq<WrapEvent>)
    ensures |evs| == |vs| && forall i :: 0 <= i < |vs| ==> evs[i] == OnThen(vs[i])
  {
    seq(|vs|, i requires 0 <= i < |vs| => OnThen(vs[i]))
  }

  /** Results are collected in completion order. */
  lemma {:induction false} ThensCollect(a: AllState, vs: seq<Val>)
    requires !a.rejected
    ensures RunWrap(a, Thens(vs)) == a.(res := a.res + |vs|, results := a.results + vs)
    decreases |vs|
  {
    if vs != [] {
      assert Thens(vs)[1..] == Thens(vs[1..]);
      ThensCollect(AllThen(a, vs[0]).a, vs[1..]);
      assert a.results + [vs[0]] + vs[1..] == a.results + vs;
    }
  }

  /**
   * __call__ (promtools.py) tries its cases in order: the collected results,
   * then every input fulfilled (their results in argument order), then any
   * rejection, else nothing.
   */
  lemma ToolsCallCases(a: AllState, vs: seq<InputView>)
    requires |vs| == a.num
    ensures var script := AllCallScript(Tools, a, vs);
      var collected := !a.rejected && a.num == a.res;
      var allDone := forall i :: 0 <= i < |vs| ==> vs[i].state == Fulfilled;
      var anyRejected := exists i :: 0 <= i < |vs| && vs[i].state == Rejected;
      && (collected ==> script == [ResolveWith(VList(a.results))])
      && (!collected && allDone ==> script == [ResolveWith(VList(ResultsOf(vs)))])
      && (!collected && !allDone && (a.rejected || anyRejected) ==> script == [RejectWith(AllReject)])
      && (!collected && !allDone && !a.rejected && !anyRejected ==> script == [])
  {
    CountStateMeans(vs, Fulfilled);
    CountStateMeans(vs, Rejected);
  }

  /** __call__ (promutils.py) reads `resolved`, which Promise lacks: with inputs it fails unless the results are collected. */
  lemma UtilsCallFails(a: AllState, vs: seq<InputView>)
    requires |vs| == a.num && vs != [] && (a.rejected || a.num != a.res)
    ensures AllCallScript(Utils, a, vs) == [RaiseError(AttributeError("resolved"))]
  {
  }

  /** pall() with no promise: exec resolves with []. */
  lemma NoInputsResolveEmpty(f: Flavor)
    ensures AllCallScript(f, AllInit(0), []) == [ResolveWith(VList([]))]
  {
  }

  /** All inputs resolved before exec: the starter resolves with their results in completion order. */
  lemma CollectedBeforeCall(f: Flavor, vs: seq<Val>, views: seq<InputView>)
    requires |views| == |vs|
    ensures var a := RunWrap(AllInit(|vs|), Thens(vs));
      a.num == |vs| && AllCallScript(f, a, views) == [ResolveWith(VList(vs))]
  {
    ThensCollect(AllInit(|vs|), vs);
    assert AllInit(|vs|).results + vs == vs;
  }

  /** After exec, the then that completes the count resolves the combined promise with every result. */
  lemma CollectedAfterCall(a: AllState, v: Val)
    requires a.started && !a.rejected && a.res + 1 == a.num
    ensures AllThen(a, v).forward == ForwardResolve(a.results + [v])
  {
  }

  /** pall's registration on one input: its then fires at once when fulfilled, its catch when rejected. */
  function RegisterOne(a: AllState, v: InputView): AllState {
    var a1 := if v.state == Fulfilled then AllThen(a, v.result).a else a;
    if v.state == Rejected && v.error.Some? then AllCatch(a1, v.error.value).a else a1
  }

  function RegisterAll(a: AllState, vs: seq<InputView>): AllState
    decreases |vs|
  {
    if vs == [] then a else RegisterAll(RegisterOne(a, vs[0]), vs[1..])
  }

  /**
   * After registration a wrap has counted the inputs already fulfilled and is
   * rejected when one already was; nothing has been forwarded (the starter has not run).
   */
  lemma {:induction false} RegisterCounts(a: AllState, vs: seq<InputView>)
    requires !a.started
    requires forall i :: 0 <= i < |vs| ==> (vs[i].state == Rejected ==> vs[i].error.Some?)
    ensures var r := RegisterAll(a, vs);
      && r.num == a.num && !r.started
      && r.res == a.res + CountState(vs, Fulfilled)
      && (r.rejected <==> a.rejected || CountState(vs, Rejected) > 0)
    decreases |vs|
  {
    if vs != [] {
      RegisterCounts(RegisterOne(a, vs[0]), vs[1..]);
    }
  }

  /** The view `__call__` has of a promise. */
  function ViewOf(p: Promise): InputView
    reads p
    requires p.Valid()
  {
    InputView(p.state, p.Result(), p.error)
  }

  function ViewsOf(ps: seq<Promise>): (vs: seq<InputView>)
    reads ps
    requires forall i :: 0 <= i < |ps| ==> ps[i].Valid()
    ensures |vs| == |ps| && forall i :: 0 <= i < |ps| ==> vs[i] == ViewOf(ps[i])
  {
    if ps == [] then [] else [ViewOf(ps[0])] + ViewsOf(ps[1..])
  }

  class AllPromiseWrap {
    const flavor: Flavor
    const num: nat
    var res: nat
    var rejected: bool
    var results: seq<Val>
    var started: bool

    function Snap(): AllState
      reads this
    {
      AllState(num, res, rejected, results, started)
    }

    constructor (flavor: Flavor, num: nat)
      ensures this.flavor == flavor && Snap() == AllInit(num)
    {
      this.flavor := flavor;
      this.num := num;
      res, rejected, results, started := 0, false, [], false;
    }

    method Then(v: Val) returns (forward: Forward)
      modifies this
      ensures AllNext(Snap(), forward) == AllThen(old(Snap()), v)
    {
      res := res + 1;
      forward := NoForward;
      if !rejected {
        results := results + [v];
        if res == num && started {
          forward := ForwardResolve(results);
        }
      }
    }

    method Catch(e: Error) returns (forward: Forward)
      modifies this
      ensures AllNext(Snap(), forward) == AllCatch(old(Snap()), e)
    {
      rejected := true;
      forward := if started then ForwardReject(e) else NoForward;
    }

    /** __call__(resolve, reject), as the combined promise's starter over `inputs`. */
    method Call(inputs: seq<Promise>) returns (script: seq<Step>)
      requires |inputs| == num && forall i :: 0 <= i < |inputs| ==> inputs[i].Valid()
      modifies this`started
      ensures script == AllCallScript(flavor, old(Snap()), ViewsOf(inputs))
      ensures Snap() == old(Snap()).(started := true)
    {
      started := true;
      var vs := ViewsOf(inputs);
      if !rejected && num == res {
        script := [ResolveWith(VList(results))];
      } else if flavor == Utils {
        script := if inputs == [] then [ResolveWith(VList([]))] else [RaiseError(AttributeError("resolved"))];
      } else if CountState(vs, Fulfilled) == num {
        script := [ResolveWith(VList(ResultsOf(vs)))];
      } else if rejected || CountState(vs, Rejected) > 0 {
        script := [RejectWith(AllReject)];
      } else {
        script := [];
      }
    }
  }

  /** `p.then(starter.then).catch(starter.catch)` for one input p. */
  method RegisterOn(wrap: AllPromiseWrap, p: Promise, thenCb: Callback, catchCb: Callback)
    requires p.Valid() && !wrap.started
    requires thenCb.raises == None && catchCb.raises == None
    modifies wrap, p`thens, p`catches, p`trace
    ensures p.Valid() && ViewOf(p) == old(ViewOf(p)) && !wrap.started
    ensures p.thens == old(p.thens) + [thenCb] && p.catches == old(p.catches) + [catchCb]
    ensures wrap.Snap() == RegisterOne(old(wrap.Snap()), old(ViewOf(p)))
  {
    var wasFulfilled, r := p.state == Fulfilled, p.Result();
    var _, _ := p.Then(thenCb);
    if wasFulfilled {
      var _ := wrap.Then(r);
    }
    var wasRejected, err := p.state == Rejected, p.error;
    var _, _ := p.Catch(catchCb);
    if wasRejected {
      var _ := wrap.Catch(err.value);
    }
  }

  /** The registration loop of pall over `inputs`. */
  method RegisterEach(wrap: AllPromiseWrap, inputs: seq<Promise>, thenCb: Callback, catchCb: Callback)
    requires forall i :: 0 <= i < |inputs| ==> inputs[i].Valid()
    requires thenCb.raises == None && catchCb.raises == None
    requires !wrap.started
    modifies wrap, inputs
    ensures forall i :: 0 <= i < |inputs| ==> inputs[i].Valid() && ViewOf(inputs[i]) == old(ViewOf(inputs[i]))
    ensures wrap.Snap() == RegisterAll(old(wrap.Snap()), old(ViewsOf(inputs)))
    ensures forall i :: 0 <= i < |inputs| ==> thenCb in inputs[i].thens && catchCb in inputs[i].catches
  {
    ghost var vs := ViewsOf(inputs);
    ghost var a0 := wrap.Snap();
    var k := 0;
    while k < |inputs|
      invariant 0 <= k <= |inputs|
      invariant forall i :: 0 <= i < |inputs| ==> inputs[i].Valid() && ViewOf(inputs[i]) == vs[i]
      invariant RegisterAll(a0, vs) == RegisterAll(wrap.Snap(), vs[k..])
      invariant forall i :: 0 <= i < k ==> thenCb in inputs[i].thens && catchCb in inputs[i].catches
      invariant !wrap.started
    {
      assert vs[k..][1..] == vs[k + 1..];
      RegisterAt(wrap, inputs, k, thenCb, catchCb, vs);
      k := k + 1;
    }
  }

  /** One turn of the registration loop: registering on inputs[k] leaves every input's view as it was. */
  method RegisterAt(wrap: AllPromiseWrap, inputs: seq<Promise>, k: nat, thenCb: Callback, catchCb: Callback,
                    ghost vs: seq<InputView>)
    requires k < |inputs| == |vs|
    requires forall i :: 0 <= i < |inputs| ==> inputs[i].Valid() && ViewOf(inputs[i]) == vs[i]
    requires forall i :: 0 <= i < k ==> thenCb in inputs[i].thens && catchCb in inputs[i].catches
    requires thenCb.raises == None && catchCb.raises == None && !wrap.started
    modifies wrap, inputs[k]
    ensures forall i :: 0 <= i < |inputs| ==> inputs[i].Valid() && ViewOf(inputs[i]) == vs[i]
    ensures forall i :: 0 <= i < k + 1 ==> thenCb in inputs[i].thens && catchCb in inputs[i].catches
    ensures wrap.Snap() == RegisterOne(old(wrap.Snap()), vs[k]) && !wrap.started
  {
    var p := inputs[k];
    label before:
    RegisterOn(wrap, p, thenCb, catchCb);
    forall i | 0 <= i < |inputs|
      ensures inputs[i].Valid() && ViewOf(inputs[i]) == vs[i]
      ensures i < k + 1 ==> thenCb in inputs[i].thens && catchCb in inputs[i].catches
    {
      if inputs[i] != p {
        assert unchanged@before(inputs[i]);
      }
    }
  }

  /**
   * pall(*promises): a wrap over the inputs, whose then and catch (the
   * callbacks `thenCb` and `catchCb`, which return normally) are registered on
   * every input; those that fire at registration update the wrap.  The
   * combined promise is new and pending; the wrap is its starter.
   */
  method Pall(flavor: Flavor, inputs: seq<Promise>, thenCb: Callback, catchCb: Callback,
              id: PromiseId, raiseAgain: bool, bufferSize: nat)
    returns (wrap: AllPromiseWrap, combined: Promise)
    requires forall i :: 0 <= i < |inputs| ==> inputs[i].Valid()
    requires thenCb.raises == None && catchCb.raises == None
    modifies inputs
    ensures fresh(wrap) && fresh(combined) && wrap.flavor == flavor && wrap.num == |inputs|
    ensures combined.Valid() && combined.Snapshot() == Initial(None, None, None)
    ensures forall i :: 0 <= i < |inputs| ==> inputs[i].Valid() && ViewOf(inputs[i]) == old(ViewOf(inputs[i]))
    ensures wrap.Snap() == RegisterAll(AllInit(|inputs|), old(ViewsOf(inputs)))
    ensures forall i :: 0 <= i < |inputs| ==> thenCb in inputs[i].thens && catchCb in inputs[i].catches
  {
    wrap := new AllPromiseWrap(flavor, |inputs|);
    RegisterEach(wrap, inputs, thenCb, catchCb);
    combined := new Promise(id, None, None, None, raiseAgain, bufferSize);
  }

  /** The wrap's call to the combined promise's resolve or reject. */
  method Deliver(combined: Promise, forward: Forward) returns (raised: Option<Error>)
    requires combined.Valid()
    modifies combined`lastResult, combined`results, combined`history, combined`trace, combined`state, combined`error
    ensures combined.Valid()
    ensures forward.NoForward? ==> combined.Snapshot() == old(combined.Snapshot()) && raised == None
    ensures forward.ForwardResolve? ==>
      Next(combined.Snapshot(), raised) == ResolveSpec(combined.Cfg(), old(combined.Snapshot()), VList(forward.values))
    ensures forward.ForwardReject? ==>
      Next(combined.Snapshot(), raised) == RejectSpec(combined.Cfg(), old(combined.Snapshot()), forward.error)
  {
    match forward
    case NoForward => raised := None;
    case ForwardResolve(vs) => raised := combined.Resolve(VList(vs));
    case ForwardReject(e) => raised := combined.Reject(e);
  }

  /** exec() of the combined promise: its starter is the wrap's __call__ over the inputs. */
  method ExecCombined(wrap: AllPromiseWrap, combined: Promise, inputs: seq<Promise>) returns (raised: Option<Error>)
    requires combined.Valid() && |inputs| == wrap.num
    requires forall i :: 0 <= i < |inputs| ==> inputs[i].Valid()
    modifies wrap`started, combined`lastResult, combined`results, combined`history, combined`trace, combined`state, combined`error
    ensures combined.Valid() && wrap.Snap() == old(wrap.Snap()).(started := true)
    ensures Next(combined.Snapshot(), raised)
         == ExecSpec(combined.Cfg(), old(combined.Snapshot()), AllCallScript(wrap.flavor, old(wrap.Snap()), old(ViewsOf(inputs))))
  {
    var script := wrap.Call(inputs);
    raised := combined.Exec(script);
  }
}
