/**
 * `debounce(func, delay)` (app/explore/page.tsx): a wrapper that keeps one pending
 * timer in a closure variable, clears it on every call and arms a new one; when the
 * timer expires, `func` runs once with the arguments of the call that armed it.
 * Time is not modelled: the expiry of the armed timer is an explicit event.
 */
module Debounce {
  import opened Wrappers

  /** The wrapper's state: the arguments of the armed timer, and every invocation of `func` so far. */
  datatype Timer<A> = Timer(pending: Option<A>, invoked: seq<A>)

  /** A call of the debounced function, or the expiry of the armed timer. */
  datatype Event<A> = Called(args: A) | Expired

  /** The invocations an expiry performs: one when a timer is armed, none otherwise. */
  function Fired<A>(pending: Option<A>): seq<A> {
    match pending
    case Some(a) => [a]
    case None => []
  }

  /** One event. A call never invokes `func`; an expiry invokes it at most once and disarms. */
  function Step<A>(t: Timer<A>, e: Event<A>): (r: Timer<A>)
    ensures e.Called? ==> r.invoked == t.invoked && r.pending == Some(e.args)
    ensures e.Expired? ==> r.pending.None? && r.invoked == t.invoked + Fired(t.pending)
  {
    match e
    case Called(a) => Timer(Some(a), t.invoked)
    case Expired => Timer(None, t.invoked + Fired(t.pending))
  }

  /** A sequence of events, in order. */
  function Run<A>(t: Timer<A>, es: seq<Event<A>>): Timer<A>
    decreases |es|
  {
    if es == [] then t else Run(Step(t, es[0]), es[1..])
  }

  predicate AllCalls<A>(es: seq<Event<A>>) {
    forall i :: 0 <= i < |es| ==> es[i].Called?
  }

  function CountExpired<A>(es: seq<Event<A>>): nat
    decreases |es|
  {
    if es == [] then 0 else (if es[0].Expired? then 1 else 0) + CountExpired(es[1..])
  }

  lemma {:induction false} RunAppend<A>(t: Timer<A>, xs: seq<Event<A>>, ys: seq<Event<A>>)
    ensures Run(t, xs + ys) == Run(Run(t, xs), ys)
    decreases |xs|
  {
    if xs == [] {
      assert xs + ys == ys;
    } else {
      assert (xs + ys)[0] == xs[0];
      assert (xs + ys)[1..] == xs[1..] + ys;
      RunAppend(Step(t, xs[0]), xs[1..], ys);
    }
  }

  /**
   * After a burst of calls with no expiry in between, one timer is pending, it carries
   * the arguments of the last call, and nothing has been invoked.
   */
  lemma {:induction false} CallsKeepOnlyLast<A>(t: Timer<A>, es: seq<Event<A>>)
    requires es != [] && AllCalls(es)
    ensures Run(t, es) == Timer(Some(es[|es| - 1].args), t.invoked)
    decreases |es|
  {
    if |es| > 1 {
      CallsKeepOnlyLast(Step(t, es[0]), es[1..]);
    }
  }

  /** N calls followed by one expiry invoke `func` exactly once, with the Nth call's arguments. */
  lemma NCallsThenExpiry<A>(t: Timer<A>, es: seq<Event<A>>)
    requires es != [] && AllCalls(es)
    ensures Run(t, es + [Expired]) == Timer(None, t.invoked + [es[|es| - 1].args])
  {
    RunAppend(t, es, [Expired]);
    CallsKeepOnlyLast(t, es);
  }

  /**
   * Invocations only happen on expiry: the log only grows, by at most one entry per
   * expiry, and each new entry is the argument of a call in the sequence or of the
   * timer armed before it.
   */
  lemma {:induction false} InvocationsOnlyOnExpiry<A>(t: Timer<A>, es: seq<Event<A>>)
    ensures var r := Run(t, es);
      |t.invoked| <= |r.invoked| <= |t.invoked| + CountExpired(es) &&
      r.invoked[..|t.invoked|] == t.invoked &&
      forall k :: |t.invoked| <= k < |r.invoked| ==>
        r.invoked[k] in Fired(t.pending) || exists i :: 0 <= i < |es| && es[i] == Called(r.invoked[k])
    decreases |es|
  {
    if es != [] {
      var s := Step(t, es[0]);
      var r := Run(t, es);
      InvocationsOnlyOnExpiry(s, es[1..]);
      assert r == Run(s, es[1..]);
      assert s.invoked[..|t.invoked|] == t.invoked;
      assert r.invoked[..|t.invoked|] == t.invoked by {
        assert r.invoked[..|s.invoked|][..|t.invoked|] == r.invoked[..|t.invoked|];
      }
      forall k | |t.invoked| <= k < |r.invoked|
        ensures r.invoked[k] in Fired(t.pending) || exists i :: 0 <= i < |es| && es[i] == Called(r.invoked[k])
      {
        if k < |s.invoked| {
          assert r.invoked[k] == r.invoked[..|s.invoked|][k] == s.invoked[k];
          assert s.invoked[k] in Fired(t.pending);
        } else if r.invoked[k] !in Fired(s.pending) {
          var i :| 0 <= i < |es[1..]| && es[1..][i] == Called(r.invoked[k]);
          assert es[i + 1] == Called(r.invoked[k]);
        } else if es[0].Expired? {
          assert false;
        } else {
          assert es[0] == Called(r.invoked[k]);
        }
      }
    }
  }

  /**
   * The debounced wrapper as an object: `pending` plays the closure's `timeoutId`
   * (None once cleared or fired), `invoked` records every invocation of `func`.
   */
  class Debouncer<A> {
    var pending: Option<A>
    var invoked: seq<A>

    function State(): Timer<A>
      reads this
    {
      Timer(pending, invoked)
    }

    constructor ()
      ensures State() == Timer(None, [])
    {
      pending := None;
      invoked := [];
    }

    /** A call of the debounced function: clear the pending timer, arm a new one with `args`. */
    method Call(args: A)
      modifies this
      ensures State() == Step(old(State()), Called(args))
    {
      pending := None;
      pending := Some(args);
    }

    /** The armed timer expires: `func` runs with its arguments, returned as `fired`. */
    method Expire() returns (fired: Option<A>)
      modifies this
      ensures fired == old(pending)
      ensures State() == Step(old(State()), Expired)
    {
      fired := pending;
      if pending.Some? {
        invoked := invoked + [pending.value];
      }
      pending := None;
    }
  }
}
