/**
 * The id -> promise registry of prompy/container.py.  A container maps
 * promise ids to promises; membership looks at the id only, and adding a
 * promise overwrites whatever was stored under its id.
 */
module Containers {
  import opened Wrappers
  import opened Errors
  import opened Promises

  /** The dictionary update `_promises[promise.id] = promise`. */
  function Register(m: map<PromiseId, Promise>, p: Promise): (m': map<PromiseId, Promise>)
    ensures p.id in m' && m'[p.id] == p
    ensures m'.Keys == m.Keys + {p.id}
    ensures forall k :: k in m && k != p.id ==> m'[k] == m[k]
  {
    m[p.id := p]
  }

  /** `x in container`: is some promise registered under x's id. */
  predicate Holds(m: map<PromiseId, Promise>, x: Promise) {
    x.id in m
  }

  /** Membership compares ids only: two promises with the same id are both in or both out. */
  lemma HoldsById(m: map<PromiseId, Promise>, x: Promise, y: Promise)
    requires x.id == y.id
    ensures Holds(m, x) == Holds(m, y)
  {
  }

  /** Registering p makes p (and every promise with p's id) a member and keeps every other member. */
  lemma RegisterHolds(m: map<PromiseId, Promise>, p: Promise, x: Promise)
    ensures Holds(Register(m, p), x) <==> x.id == p.id || Holds(m, x)
  {
  }

  /** BasePromiseContainer.add_promise and BasePromiseRunner.add_promise/start/stop. */
  function BaseAddPromise(p: Promise): (raised: Option<Error>)
    ensures raised == Some(NotImplementedError)
  {
    Some(NotImplementedError)
  }

  function BaseStart(): (raised: Option<Error>)
    ensures raised == Some(NotImplementedError)
  {
    Some(NotImplementedError)
  }

  function BaseStop(): (raised: Option<Error>)
    ensures raised == Some(NotImplementedError)
  {
    Some(NotImplementedError)
  }

  class PromiseContainer {
    var promises: map<PromiseId, Promise>

    constructor ()
      ensures promises == map[]
      ensures forall x: Promise :: !Contains(x)
    {
      promises := map[];
    }

    /** `x in container` */
    predicate Contains(x: Promise)
      reads this
    {
      Holds(promises, x)
    }

    method AddPromise(p: Promise)
      modifies this
      ensures promises == Register(old(promises), p)
      ensures Contains(p)
    {
      promises := Register(promises, p);
    }
  }
}
