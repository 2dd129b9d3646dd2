/** Runs of a state machine: what a sequence of events makes of a state. */
module Runs {
  function Exec<S, E>(step: (S, E) -> S, s: S, events: seq<E>): S
    decreases |events|
  {
    if events == [] then s else Exec(step, step(s, events[0]), events[1..])
  }

  lemma ExecCons<S, E>(step: (S, E) -> S, s: S, e: E, rest: seq<E>)
    ensures Exec(step, s, [e] + rest) == Exec(step, step(s, e), rest)
    ensures Exec(step, s, [e]) == step(s, e)
  {
    assert ([e] + rest)[1..] == rest && [e][1..] == [];
    assert Exec(step, step(s, e), []) == step(s, e);
  }

  lemma ExecFour<S, E>(step: (S, E) -> S, s: S, e0: E, e1: E, e2: E, e3: E)
    ensures Exec(step, s, [e0, e1, e2, e3]) == step(step(step(step(s, e0), e1), e2), e3)
  {
    ExecCons(step, s, e0, [e1, e2, e3]);
    ExecCons(step, step(s, e0), e1, [e2, e3]);
    ExecCons(step, step(step(s, e0), e1), e2, [e3]);
    ExecCons(step, step(step(step(s, e0), e1), e2), e3, []);
    assert [e0] + [e1, e2, e3] == [e0, e1, e2, e3] && [e1] + [e2, e3] == [e1, e2, e3] && [e2] + [e3] == [e2, e3];
  }

  lemma ExecTwo<S, E>(step: (S, E) -> S, s: S, e0: E, e1: E)
    ensures Exec(step, s, [e0, e1]) == step(step(s, e0), e1)
  {
    ExecCons(step, s, e0, [e1]);
    ExecCons(step, step(s, e0), e1, []);
    assert [e0] + [e1] == [e0, e1];
  }

  /** The state after the first `k` events. */
  function After<S, E>(step: (S, E) -> S, s: S, events: seq<E>, k: nat): S
    requires k <= |events|
  {
    Exec(step, s, events[..k])
  }

  lemma {:induction false} ExecConcat<S, E>(step: (S, E) -> S, s: S, a: seq<E>, b: seq<E>)
    ensures Exec(step, s, a + b) == Exec(step, Exec(step, s, a), b)
    decreases |a|
  {
    if a == [] {
      assert a + b == b;
    } else {
      assert (a + b)[0] == a[0] && (a + b)[1..] == a[1..] + b;
      ExecConcat(step, step(s, a[0]), a[1..], b);
    }
  }

  lemma AfterStep<S, E>(step: (S, E) -> S, s: S, events: seq<E>, k: nat)
    requires k < |events|
    ensures After(step, s, events, k + 1) == step(After(step, s, events, k), events[k])
  {
    assert events[..k + 1] == events[..k] + [events[k]];
    assert [events[k]][1..] == [];
    ExecConcat(step, s, events[..k], [events[k]]);
  }

  lemma AfterAll<S, E>(step: (S, E) -> S, s: S, events: seq<E>)
    ensures After(step, s, events, |events|) == Exec(step, s, events) && After(step, s, events, 0) == s
  {
    assert events[..|events|] == events && events[..0] == [];
  }

  /** The states of a run from its second event on are those of the rest of the run. */
  lemma AfterRest<S, E>(step: (S, E) -> S, s: S, events: seq<E>, k: nat)
    requires k < |events|
    ensures After(step, s, events, k + 1) == After(step, step(s, events[0]), events[1..], k)
  {
    assert events[..k + 1][0] == events[0] && events[..k + 1][1..] == events[1..][..k];
  }

  // ---------------------------------------------------------------------------
  // From steps to runs
  // ---------------------------------------------------------------------------

  /** `P` holds before, between and after all events. */
  ghost predicate Always<S(!new), E(!new)>(step: (S, E) -> S, holds: S -> bool, s: S, events: seq<E>) {
    forall k: nat :: k <= |events| ==> holds(After(step, s, events, k))
  }

  /** No event meets `breaks` in the state that it finds. */
  ghost predicate Never<S(!new), E(!new)>(step: (S, E) -> S, breaks: (S, E) -> bool, s: S, events: seq<E>) {
    forall k: nat :: k < |events| ==> !breaks(After(step, s, events, k), events[k])
  }

  /** Every step keeps `P` exactly unless it is of a breaking kind. */
  ghost predicate Decided<S(!new), E(!new)>(step: (S, E) -> S, holds: S -> bool, breaks: (S, E) -> bool) {
    forall s: S, e: E :: holds(s) ==> (holds(step(s, e)) <==> !breaks(s, e))
  }

  lemma {:induction false} HoldsUpTo<S(!new), E(!new)>(step: (S, E) -> S, holds: S -> bool, breaks: (S, E) -> bool,
                                                       s: S, events: seq<E>, k: nat)
    requires Decided(step, holds, breaks) && holds(s) && Never(step, breaks, s, events) && k <= |events|
    ensures holds(After(step, s, events, k))
    decreases k
  {
    if k == 0 {
      AfterAll(step, s, events);
    } else {
      HoldsUpTo(step, holds, breaks, s, events, k - 1);
      AfterStep(step, s, events, k - 1);
      assert !breaks(After(step, s, events, k - 1), events[k - 1]);
    }
  }

  /** What every step keeps exactly unless it breaks it holds throughout a run if and
      only if no step of the run breaks it. */
  lemma AlwaysIff<S(!new), E(!new)>(step: (S, E) -> S, holds: S -> bool, breaks: (S, E) -> bool, s: S, events: seq<E>)
    requires Decided(step, holds, breaks) && holds(s)
    ensures Always(step, holds, s, events) <==> Never(step, breaks, s, events)
  {
    if Always(step, holds, s, events) {
      forall k: nat | k < |events|
        ensures !breaks(After(step, s, events, k), events[k])
      {
        AfterStep(step, s, events, k);
        assert holds(After(step, s, events, k)) && holds(After(step, s, events, k + 1));
      }
    } else if Never(step, breaks, s, events) {
      forall k: nat | k <= |events| { HoldsUpTo(step, holds, breaks, s, events, k); }
    }
  }
}
