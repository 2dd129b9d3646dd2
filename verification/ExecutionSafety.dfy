/** What every interleaving of the execution lifecycle keeps: concurrency permits,
    the entry of the current round, the first settlement. */
module ExecutionSafety {
  import opened Wrappers
  import Runs
  import opened ConcurrencyControl
  import opened ExecutionLifecycle

  // ---------------------------------------------------------------------------
  // Prefixes of a run
  // ---------------------------------------------------------------------------

  /** The state after the first `k` events. */
  ghost function After(s: State, events: seq<Event>, k: nat): (s': State)
    requires WellFormed(s) && k <= |events|
    ensures WellFormed(s')
  {
    ExecWellFormed(s, events[..k]);
    Runs.After(Step, s, events, k)
  }

  lemma ExecConcat(s: State, a: seq<Event>, b: seq<Event>)
    requires WellFormed(s)
    ensures WellFormed(Exec(s, a)) && Exec(s, a + b) == Exec(Exec(s, a), b)
  {
    ExecWellFormed(s, a);
    Runs.ExecConcat(Step, s, a, b);
  }

  lemma ExecTwo(s: State, e0: Event, s1: State, e1: Event)
    requires WellFormed(s) && Apply(s, e0) == s1
    ensures Exec(s, [e0, e1]) == Apply(s1, e1)
  {
    Runs.ExecTwo(Step, s, e0, e1);
  }

  lemma AfterStep(s: State, events: seq<Event>, k: nat)
    requires WellFormed(s) && k < |events|
    ensures After(s, events, k + 1) == Apply(After(s, events, k), events[k])
  {
    Runs.AfterStep(Step, s, events, k);
  }

  lemma AfterAll(s: State, events: seq<Event>)
    requires WellFormed(s)
    ensures After(s, events, |events|) == Exec(s, events) && After(s, events, 0) == s
  {
    Runs.AfterAll(Step, s, events);
  }

  // ---------------------------------------------------------------------------
  // Who holds a permit: rounds and entries
  // ---------------------------------------------------------------------------

  /** Nothing is lost when this run is no longer in the map: its handler has run,
      or will run without touching the map. */
  predicate Released(run: Run) {
    run.handled || (run.status == Waiting && !run.post.Pending?)
  }

  /** Every run whose handler is still to come is the entry of its id or an already
      settled waiting run. */
  ghost predicate Tracked(s: State) {
    forall r: nat :: r < |s.runs| ==> IsEntry(s, r) || Released(s.runs[r])
  }

  /** The event takes the entry of `id` out of the map, or puts another one in its
      place, other than by that entry's own settle handler. */
  predicate Unlinks(s: State, e: Event, id: Id)
    requires WellFormed(s)
  {
    && id in s.active
    && match e
       case EAdd(k, now) => k < |s.control.admitted| && s.control.admitted[k].id == id
       case EStop(id') => id' == id && Entry(s, id).status == Waiting
       case EShutdownVisit(id', regular, cancelAll) =>
         && id' == id
         && (Entry(s, id).status == Waiting
             || (Entry(s, id).status == New && Entry(s, id).response.None? && !(regular && cancelAll)))
       case _ => false
  }

  /** Resume only what is absent or waiting, and stop or resume a waiting execution
      only after it has settled. */
  ghost predicate Safe(s: State, e: Event)
    requires WellFormed(s)
  {
    forall id :: Unlinks(s, e, id) ==> Released(Entry(s, id))
  }

  lemma OnlyEntriesTracked(s: State, s': State)
    requires WellFormed(s) && OnlyEntries(s, s') && Tracked(s)
    ensures Tracked(s')
  {
    forall r: nat | r < |s'.runs|
      ensures IsEntry(s', r) || Released(s'.runs[r])
    {
      assert IsEntry(s, r) || Released(s.runs[r]);
    }
  }

  /** Taking the entry of `id` out. */
  lemma UnlinkTracked(s: State, s': State, id: Id)
    requires WellFormed(s) && WellFormed(s') && Tracked(s) && id in s.active
    requires s'.runs == s.runs && s'.active == s.active - {id}
    ensures Tracked(s') <==> Released(Entry(s, id))
  {
    var r0 := s.active[id];
    assert !IsEntry(s', r0);
    forall r: nat | r < |s.runs| && r != r0
      ensures IsEntry(s', r) || Released(s'.runs[r])
    {
      assert IsEntry(s, r) || Released(s.runs[r]);
    }
  }

  lemma AddTracked(s: State, k: nat, now: int)
    requires WellFormed(s) && Tracked(s)
    ensures Tracked(Add(s, k, now)) <==> Safe(s, EAdd(k, now))
  {
    if k < |s.control.admitted| {
      var id := s.control.admitted[k].id;
      var s' := Add(s, k, now);
      assert IsEntry(s', |s.runs|);
      forall r: nat | r < |s.runs|
        ensures IsEntry(s', r) <==> IsEntry(s, r) && s.runs[r].id != id
      {
      }
      if id in s.active {
        assert Unlinks(s, EAdd(k, now), id);
        var r0 := s.active[id];
        assert !IsEntry(s', r0) && s'.runs[r0] == s.runs[r0];
      }
      if Safe(s, EAdd(k, now)) {
        forall r: nat | r < |s'.runs|
          ensures IsEntry(s', r) || Released(s'.runs[r])
        {
          if r < |s.runs| {
            assert IsEntry(s, r) || Released(s.runs[r]);
          }
        }
      }
    }
  }

  /** The settle handler only ever removes the entry of its own run. */
  lemma HandlerKeepsOtherRounds(s: State, r: nat)
    requires WellFormed(s) && Tracked(s)
    ensures forall id :: id in s.active && s.active[id] != r ==>
              id in OnSettled(s, r).active && OnSettled(s, r).active[id] == s.active[id]
    ensures Tracked(OnSettled(s, r))
  {
    if r < |s.runs| && !s.runs[r].handled && !s.runs[r].post.Pending? {
      assert IsEntry(s, r) || Released(s.runs[r]);
      var s' := OnSettled(s, r);
      forall q: nat | q < |s'.runs|
        ensures IsEntry(s', q) || Released(s'.runs[q])
      {
        assert IsEntry(s, q) || Released(s.runs[q]);
      }
    }
  }

  lemma StopTracked(s: State, id: Id)
    requires WellFormed(s) && Tracked(s)
    ensures Tracked(Stop(s, id)) <==> Safe(s, EStop(id))
  {
    if id in s.active && Entry(s, id).status == Waiting {
      assert Unlinks(s, EStop(id), id);
      UnlinkTracked(s, Stop(s, id), id);
    } else {
      OnlyEntriesTracked(s, Stop(s, id));
    }
  }

  lemma ShutdownVisitTracked(s: State, id: Id, regular: bool, cancelAll: bool)
    requires WellFormed(s) && Tracked(s)
    ensures Tracked(ShutdownVisit(s, id, regular, cancelAll)) <==> Safe(s, EShutdownVisit(id, regular, cancelAll))
  {
    var e := EShutdownVisit(id, regular, cancelAll);
    if id in s.active {
      if Unlinks(s, e, id) {
        UnlinkTracked(s, ShutdownVisit(s, id, regular, cancelAll), id);
      } else {
        OnlyEntriesTracked(s, ShutdownVisit(s, id, regular, cancelAll));
      }
    }
  }

  /** One step, any event: tracking survives exactly when the event is safe. */
  lemma TrackedStepIff(s: State, e: Event)
    requires WellFormed(s) && Tracked(s)
    ensures Tracked(Apply(s, e)) <==> Safe(s, e)
  {
    match e
    case EAdd(k, now) => AddTracked(s, k, now);
    case ESettled(r) => HandlerKeepsOtherRounds(s, r);
    case EStop(id) => StopTracked(s, id);
    case EShutdownVisit(id, regular, cancelAll) => ShutdownVisitTracked(s, id, regular, cancelAll);
    case _ => OnlyEntriesTracked(s, Apply(s, e));
  }

  /** No run is lost. */
  ghost predicate Intact(s: State) {
    WellFormed(s) && Tracked(s)
  }

  ghost predicate Unsafe(s: State, e: Event) {
    WellFormed(s) && !Safe(s, e)
  }

  /** Over whole runs: no run is ever lost if and only if every event was safe. */
  lemma TrackedRunIff(s: State, events: seq<Event>)
    requires Intact(s)
    ensures Runs.Always(Step, Intact, s, events) <==> Runs.Never(Step, Unsafe, s, events)
  {
    forall s: State, e: Event | Intact(s)
      ensures Intact(Step(s, e)) <==> !Unsafe(s, e)
    {
      TrackedStepIff(s, e);
    }
    Runs.AlwaysIff(Step, Intact, Unsafe, s, events);
  }

  /** A run that has left the map unsettled is out of reach for good: it stays
      pending, so its permit never comes back. */
  ghost predicate Lost(s: State, r: nat) {
    r < |s.runs| && s.runs[r].post.Pending? && !IsEntry(s, r)
  }

  lemma LostWhileOnlyEntries(s: State, s': State, r: nat)
    requires WellFormed(s) && Lost(s, r) && OnlyEntries(s, s')
    ensures Lost(s', r)
  {
  }

  lemma LostStop(s: State, id: Id, r: nat)
    requires WellFormed(s) && Lost(s, r)
    ensures Lost(Stop(s, id), r)
  {
  }

  lemma LostShutdownVisit(s: State, id: Id, regular: bool, cancelAll: bool, r: nat)
    requires WellFormed(s) && Lost(s, r)
    ensures Lost(ShutdownVisit(s, id, regular, cancelAll), r)
  {
    LostStop(s, id, r);
  }

  lemma LostAddOrSettled(s: State, k: nat, now: int, q: nat, r: nat)
    requires WellFormed(s) && Lost(s, r)
    ensures Lost(Add(s, k, now), r) && Lost(OnSettled(s, q), r)
  {
  }

  lemma LostStep(s: State, e: Event, r: nat)
    requires WellFormed(s) && Lost(s, r)
    ensures Lost(Apply(s, e), r)
  {
    match e
    case EAdd(k, now) => LostAddOrSettled(s, k, now, 0, r);
    case ESettled(q) => LostAddOrSettled(s, 0, 0, q, r);
    case EStop(id) => LostStop(s, id, r);
    case EShutdownVisit(id, regular, cancelAll) => LostShutdownVisit(s, id, regular, cancelAll, r);
    case _ => LostWhileOnlyEntries(s, Apply(s, e), r);
  }

  lemma {:induction false} LostForever(s: State, events: seq<Event>, r: nat)
    requires WellFormed(s) && Lost(s, r)
    ensures WellFormed(Exec(s, events)) && Lost(Exec(s, events), r) && !Exec(s, events).runs[r].handled
    decreases |events|
  {
    if events != [] {
      LostStep(s, events[0], r);
      LostForever(Apply(s, events[0]), events[1..], r);
    }
  }
}
