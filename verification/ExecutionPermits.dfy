/** Concurrency permits over whole runs of the execution lifecycle. */
module ExecutionPermits {
  import opened Wrappers
  import Runs
  import opened ConcurrencyControl
  import opened ExecutionLifecycle
  import opened ExecutionSafety
  import ExecutionRounds

  /** The runs of a limited mode whose settle handler has not run. */
  function CountUnhandled(runs: seq<Run>, t: QueueType): nat {
    if runs == [] then 0
    else (if runs[0].handled then 0 else Share(runs[0].mode, t)) + CountUnhandled(runs[1..], t)
  }

  lemma {:induction false} CountUnhandledConcat(a: seq<Run>, b: seq<Run>, t: QueueType)
    ensures CountUnhandled(a + b, t) == CountUnhandled(a, t) + CountUnhandled(b, t)
  {
    if a == [] {
      assert a + b == b;
    } else {
      assert (a + b)[0] == a[0] && (a + b)[1..] == a[1..] + b;
      CountUnhandledConcat(a[1..], b, t);
    }
  }

  lemma {:induction false} CountUnhandledSame(a: seq<Run>, b: seq<Run>, t: QueueType)
    requires |a| == |b|
    requires forall r :: 0 <= r < |a| ==> a[r].handled == b[r].handled && a[r].mode == b[r].mode
    ensures CountUnhandled(a, t) == CountUnhandled(b, t)
  {
    if a != [] {
      CountUnhandledSame(a[1..], b[1..], t);
    }
  }

  lemma CountUnhandledSettle(a: seq<Run>, r: nat, run: Run, t: QueueType)
    requires r < |a| && !a[r].handled && run.handled && run.mode == a[r].mode
    ensures CountUnhandled(a, t) == CountUnhandled(a[r := run], t) + Share(run.mode, t)
  {
    var l, m := a[..r], a[r + 1..];
    assert a == l + ([a[r]] + m) && a[r := run] == l + ([run] + m);
    CountUnhandledConcat(l, [a[r]] + m, t);
    CountUnhandledConcat(l, [run] + m, t);
    assert ([a[r]] + m)[1..] == m && ([run] + m)[1..] == m;
  }

  function Limit(limits: Limits, t: QueueType): nat {
    if t in limits then limits[t] else 0
  }

  /** Capacity, admitted tickets, waiting tickets and unhandled runs add up to the limit. */
  ghost predicate Conserved(s: State, limits: Limits) {
    && s.control.enabled && Routed(s.control) && s.control.queues.Keys == limits.Keys
    && forall t :: Balanced(s.control, Limit(limits, t), t, CountUnhandled(s.runs, t))
  }

  /** At most the limit of each queue is between admission and settle handler. */
  ghost predicate LimitHeld(s: State, limits: Limits) {
    forall t :: WithinLimit(s.control, Limit(limits, t), t, CountUnhandled(s.runs, t))
  }

  ghost predicate OverAdmits(s: State, e: Event) {
    e.ERemoveQueued? && exists t :: RemovesPastAnother(s.control, e.mode, e.id, t)
  }

  function Initial(limits: Limits): (s: State)
    ensures WellFormed(s)
  {
    State([], map[], map[], Control(true, map t | t in limits :: Queue(limits[t], []), []))
  }

  lemma InitialConserved(limits: Limits)
    ensures Conserved(Initial(limits), limits) && LimitHeld(Initial(limits), limits) && Tracked(Initial(limits))
  {
  }

  lemma AddPermits(s: State, k: nat, now: int, limits: Limits)
    requires WellFormed(s) && Conserved(s, limits)
    ensures Conserved(Add(s, k, now), limits)
    ensures LimitHeld(s, limits) ==> LimitHeld(Add(s, k, now), limits)
  {
    if k < |s.control.admitted| {
      var s' := Add(s, k, now);
      var run := s'.runs[|s.runs|];
      forall t
        ensures CountUnhandled(s'.runs, t) == CountUnhandled(s.runs, t) + Share(s.control.admitted[k].mode, t)
        ensures Balanced(s'.control, Limit(limits, t), t, CountUnhandled(s'.runs, t))
        ensures InFlight(s'.control, t, CountUnhandled(s'.runs, t)) == InFlight(s.control, t, CountUnhandled(s.runs, t))
      {
        CountUnhandledConcat(s.runs, [run], t);
        assert [run][1..] == [];
        AdmitBalanced(s.control, k, Limit(limits, t), t, CountUnhandled(s.runs, t));
      }
      if LimitHeld(s, limits) {
        forall t
          ensures WithinLimit(s'.control, Limit(limits, t), t, CountUnhandled(s'.runs, t))
        {
          assert WithinLimit(s.control, Limit(limits, t), t, CountUnhandled(s.runs, t));
        }
      }
    }
  }

  lemma SettledPermits(s: State, r: nat, limits: Limits)
    requires WellFormed(s) && Conserved(s, limits)
    ensures Conserved(OnSettled(s, r), limits)
    ensures LimitHeld(s, limits) ==> LimitHeld(OnSettled(s, r), limits)
  {
    if r < |s.runs| && !s.runs[r].handled && !s.runs[r].post.Pending? {
      var s' := OnSettled(s, r);
      var mode := s.runs[r].mode;
      assert s'.control == Release(s.control, mode);
      forall t
        ensures Routed(s'.control)
        ensures Balanced(s'.control, Limit(limits, t), t, CountUnhandled(s'.runs, t))
        ensures LimitHeld(s, limits) ==> WithinLimit(s'.control, Limit(limits, t), t, CountUnhandled(s'.runs, t))
      {
        CountUnhandledSettle(s.runs, r, s'.runs[r], t);
        assert s'.runs == s.runs[r := s'.runs[r]];
        assert Balanced(s.control, Limit(limits, t), t, CountUnhandled(s.runs, t));
        ReleaseBalanced(s.control, mode, Limit(limits, t), t, CountUnhandled(s'.runs, t));
        if LimitHeld(s, limits) {
          assert WithinLimit(s.control, Limit(limits, t), t, CountUnhandled(s.runs, t));
        }
      }
    }
  }

  lemma ThrottlePermits(s: State, ticket: Ticket, limits: Limits)
    requires WellFormed(s) && Conserved(s, limits)
    ensures Conserved(ExecutionLifecycle.Throttle(s, ticket), limits)
    ensures LimitHeld(s, limits) ==> LimitHeld(ExecutionLifecycle.Throttle(s, ticket), limits)
  {
    forall t
      ensures Routed(ConcurrencyControl.Throttle(s.control, ticket))
      ensures Balanced(ConcurrencyControl.Throttle(s.control, ticket), Limit(limits, t), t, CountUnhandled(s.runs, t))
      ensures LimitHeld(s, limits) ==>
                WithinLimit(ConcurrencyControl.Throttle(s.control, ticket), Limit(limits, t), t,
                            CountUnhandled(s.runs, t))
    {
      assert Balanced(s.control, Limit(limits, t), t, CountUnhandled(s.runs, t));
      ThrottleBalanced(s.control, ticket, Limit(limits, t), t, CountUnhandled(s.runs, t));
      if LimitHeld(s, limits) {
        assert WithinLimit(s.control, Limit(limits, t), t, CountUnhandled(s.runs, t));
      }
    }
  }

  lemma RemovePermits(s: State, mode: Mode, id: Id, limits: Limits)
    requires WellFormed(s) && Conserved(s, limits)
    ensures Conserved(RemoveQueued(s, mode, id), limits)
    ensures LimitHeld(s, limits) ==> (LimitHeld(RemoveQueued(s, mode, id), limits) <==>
                                      !OverAdmits(s, ERemoveQueued(mode, id)))
  {
    var s' := RemoveQueued(s, mode, id);
    forall t
      ensures Routed(s'.control)
      ensures Balanced(s'.control, Limit(limits, t), t, CountUnhandled(s.runs, t))
      ensures LimitHeld(s, limits) && t in s.control.queues ==>
                (WithinLimit(s'.control, Limit(limits, t), t, CountUnhandled(s.runs, t)) <==>
                 !RemovesPastAnother(s.control, mode, id, t))
    {
      assert Balanced(s.control, Limit(limits, t), t, CountUnhandled(s.runs, t));
      RemoveBalanced(s.control, mode, id, Limit(limits, t), t, CountUnhandled(s.runs, t));
      if LimitHeld(s, limits) {
        assert WithinLimit(s.control, Limit(limits, t), t, CountUnhandled(s.runs, t));
      }
    }
  }

  lemma SamePermits(s: State, s': State, limits: Limits)
    requires WellFormed(s) && Conserved(s, limits) && SameHandlers(s, s') && s'.control == s.control
    ensures Conserved(s', limits)
    ensures LimitHeld(s, limits) ==> LimitHeld(s', limits)
  {
    forall t
      ensures CountUnhandled(s'.runs, t) == CountUnhandled(s.runs, t)
    {
      CountUnhandledSame(s.runs, s'.runs, t);
    }
  }

  /** One step, any event before shutdown: permits are conserved, and the limit
      holds on exactly when the event is not a removal past another waiter. */
  lemma PermitsStep(s: State, e: Event, limits: Limits)
    requires WellFormed(s) && Conserved(s, limits) && !e.EDisable?
    ensures Conserved(Apply(s, e), limits)
    ensures LimitHeld(s, limits) ==> (LimitHeld(Apply(s, e), limits) <==> !OverAdmits(s, e))
  {
    if e.EAdd? {
      AddPermits(s, e.k, e.now, limits);
    } else if e.ESettled? {
      SettledPermits(s, e.r, limits);
    } else if e.EThrottle? {
      ThrottlePermits(s, e.ticket, limits);
    } else if e.ERemoveQueued? {
      RemovePermits(s, e.mode, e.id, limits);
    } else {
      SamePermits(s, Apply(s, e), limits);
    }
  }

  ghost predicate BeforeShutdown(events: seq<Event>) {
    forall k :: 0 <= k < |events| ==> !events[k].EDisable?
  }

  /** For every interleaving before shutdown no permit appears or disappears: for each
      queue, free capacity, waiters, admitted adds and unhandled runs sum to the limit,
      and somebody waits only if nothing is free. */
  lemma {:induction false} PermitsConserved(limits: Limits, events: seq<Event>, k: nat)
    requires BeforeShutdown(events) && k <= |events|
    ensures Conserved(After(Initial(limits), events, k), limits)
    decreases k
  {
    AfterAll(Initial(limits), events);
    if k == 0 {
      InitialConserved(limits);
    } else {
      PermitsConserved(limits, events, k - 1);
      AfterStep(Initial(limits), events, k - 1);
      PermitsStep(After(Initial(limits), events, k - 1), events[k - 1], limits);
    }
  }

  ghost predicate AlwaysWithinLimit(limits: Limits, events: seq<Event>) {
    forall k: nat :: k <= |events| ==> LimitHeld(After(Initial(limits), events, k), limits)
  }

  ghost predicate NeverOverAdmits(limits: Limits, events: seq<Event>) {
    forall k: nat :: k < |events| ==> !OverAdmits(After(Initial(limits), events, k), events[k])
  }

  /** The concurrency limit holds throughout a run if and only if no queued execution
      is removed while another one queues behind the same limit. */
  lemma LimitRunIff(limits: Limits, events: seq<Event>)
    requires BeforeShutdown(events)
    ensures AlwaysWithinLimit(limits, events) <==> NeverOverAdmits(limits, events)
  {
    var s0 := Initial(limits);
    var holds := (s: State) => WellFormed(s) && Conserved(s, limits) && LimitHeld(s, limits);
    var breaks := (s: State, e: Event) => e.EDisable? || OverAdmits(s, e);
    forall s: State, e: Event | holds(s)
      ensures holds(Step(s, e)) <==> !breaks(s, e)
    {
      if !e.EDisable? {
        PermitsStep(s, e, limits);
      }
    }
    InitialConserved(limits);
    Runs.AlwaysIff(Step, holds, breaks, s0, events);
    forall k: nat | k <= |events|
      ensures holds(Runs.After(Step, s0, events, k)) <==> LimitHeld(After(s0, events, k), limits)
    {
      PermitsConserved(limits, events, k);
    }
    assert forall k: nat :: k < |events| ==>
             (breaks(Runs.After(Step, s0, events, k), events[k]) <==> OverAdmits(After(s0, events, k), events[k]));
  }

  /** Limit one, `a` admitted, `b` and `c` queued: removing `b` starts `c`, and two
      are in flight. */
  lemma OverAdmissionExample()
    ensures var a, b, c := Ticket("a", Webhook), Ticket("b", Webhook), Ticket("c", Webhook);
            var s := State([], map[], map[], Control(true, map[ProductionQueue := Queue(-2, [b, c])], [a]));
            && Conserved(s, map[ProductionQueue := 1]) && LimitHeld(s, map[ProductionQueue := 1])
            && RemoveQueued(s, Webhook, "b").control == Control(true, map[ProductionQueue := Queue(-1, [])], [a, c])
            && OverAdmits(s, ERemoveQueued(Webhook, "b"))
  {
    var a, b, c := Ticket("a", Webhook), Ticket("b", Webhook), Ticket("c", Webhook);
    var control := Control(true, map[ProductionQueue := Queue(-2, [b, c])], [a]);
    assert [a][1..] == [];
    assert CountTickets([a], ProductionQueue) == 1;
    assert [b, c][..0] + [b, c][1..] == [c] && [c][1..] == [];
    assert Removed(Queue(-2, [b, c]), "b") == (Queue(-1, []), Some(c));
    assert RemovesPastAnother(control, Webhook, "b", ProductionQueue);
  }

  // ---------------------------------------------------------------------------
  // A lost permit
  // ---------------------------------------------------------------------------

  lemma {:induction false} ConservedFrom(s: State, events: seq<Event>, limits: Limits)
    requires WellFormed(s) && Conserved(s, limits) && BeforeShutdown(events)
    ensures WellFormed(Exec(s, events)) && Conserved(Exec(s, events), limits)
    decreases |events|
  {
    if events != [] {
      PermitsStep(s, events[0], limits);
      ConservedFrom(Apply(s, events[0]), events[1..], limits);
    }
  }

  /** The unhandled runs of a queue but for one of them. */
  function OthersUnhandled(runs: seq<Run>, r: nat, t: QueueType): nat
    requires r < |runs|
  {
    CountUnhandled(runs[..r], t) + CountUnhandled(runs[r + 1..], t)
  }

  lemma CountOthers(runs: seq<Run>, r: nat, t: QueueType)
    requires r < |runs| && !runs[r].handled
    ensures CountUnhandled(runs, t) == OthersUnhandled(runs, r, t) + Share(runs[r].mode, t)
  {
    assert runs == runs[..r] + ([runs[r]] + runs[r + 1..]);
    CountUnhandledConcat(runs[..r], [runs[r]] + runs[r + 1..], t);
    assert ([runs[r]] + runs[r + 1..])[1..] == runs[r + 1..];
  }

  /** In every continuation before shutdown the permit of a lost run stays with it: the
      capacity, the waiting, the admitted and all other runs share one permit less. */
  lemma LostPermit(s: State, events: seq<Event>, r: nat, limits: Limits, t: QueueType)
    requires WellFormed(s) && Conserved(s, limits) && Lost(s, r) && t in limits && QueueOf(s.runs[r].mode) == Some(t)
    requires BeforeShutdown(events)
    ensures var s' := Exec(s, events);
            && WellFormed(s') && Lost(s', r) && !s'.runs[r].handled && t in s'.control.queues
            && var q := s'.control.queues[t];
               q.capacity + |q.waiting| + CountTickets(s'.control.admitted, t)
               + OthersUnhandled(s'.runs, r, t) + 1 == limits[t]
  {
    ConservedFrom(s, events, limits);
    LostForever(s, events, r);
    SameRunAfter(s, events, r);
    UnhandledPermit(Exec(s, events), r, limits, t);
  }

  /** An unhandled run has its permit, and everything else shares the others. */
  lemma UnhandledPermit(s: State, r: nat, limits: Limits, t: QueueType)
    requires Conserved(s, limits) && r < |s.runs| && !s.runs[r].handled && t in limits
    requires QueueOf(s.runs[r].mode) == Some(t)
    ensures t in s.control.queues
    ensures var q := s.control.queues[t];
            q.capacity + |q.waiting| + CountTickets(s.control.admitted, t) + OthersUnhandled(s.runs, r, t) + 1
            == limits[t]
    ensures WithinLimit(s.control, limits[t], t, CountUnhandled(s.runs, t)) && limits[t] == 1 ==>
              CountTickets(s.control.admitted, t) == 0 && OthersUnhandled(s.runs, r, t) == 0
  {
    CountOthers(s.runs, r, t);
    assert Balanced(s.control, Limit(limits, t), t, CountUnhandled(s.runs, t));
  }

  lemma {:induction false} SameRunAfter(s: State, events: seq<Event>, r: nat)
    requires WellFormed(s) && r < |s.runs|
    ensures WellFormed(Exec(s, events)) && r < |Exec(s, events).runs|
    ensures Exec(s, events).runs[r].mode == s.runs[r].mode && Exec(s, events).runs[r].id == s.runs[r].id
    decreases |events|
  {
    if events != [] {
      assert SameRun(s.runs[r], Apply(s, events[0]).runs[r]);
      SameRunAfter(Apply(s, events[0]), events[1..], r);
    }
  }

  // Limit one: an execution is admitted, starts to wait and is stopped.

  const ONE := map[ProductionQueue := 1]

  const STARTS := [EThrottle(Ticket("a", Webhook)), EAdd(0, 0)]

  const LOSES := [ESetStatus("a", Waiting), EStop("a")]

  function Taken(admitted: seq<Ticket>): Control {
    Control(true, map[ProductionQueue := Queue(0, [])], admitted)
  }

  function OnlyRun(status: Status): Run {
    Run("a", Webhook, 0, status, Pending, None, Detached, false)
  }

  const LOST := State([OnlyRun(Waiting)], map[], map[], Taken([]))

  const RUNNING := State([OnlyRun(Running)], map["a" := 0], map[], Taken([]))

  lemma LosingBegins()
    ensures WellFormed(RUNNING) && Exec(Initial(ONE), STARTS) == RUNNING
  {
    var s1 := State([], map[], map[], Taken([Ticket("a", Webhook)]));
    assert Apply(Initial(ONE), STARTS[0]) == s1 by {
      assert ExecutionLifecycle.Throttle(Initial(ONE), Ticket("a", Webhook)).control == s1.control;
    }
    assert Apply(s1, STARTS[1]) == RUNNING by {
      assert s1.control.admitted[..0] + s1.control.admitted[1..] == [];
    }
    ExecTwo(Initial(ONE), STARTS[0], s1, STARTS[1]);
  }

  lemma LosingEnds()
    ensures WellFormed(RUNNING) && Exec(RUNNING, LOSES) == LOST
  {
    var s3 := RUNNING.(runs := [OnlyRun(Waiting)]);
    assert Apply(RUNNING, LOSES[0]) == s3;
    assert s3.active - {"a"} == map[];
    ExecTwo(RUNNING, LOSES[0], s3, LOSES[1]);
  }

  /** The run leads from the initial state to one where the execution is lost. */
  lemma LosingRunLoses()
    ensures Exec(Initial(ONE), STARTS + LOSES) == LOST && WellFormed(LOST) && Lost(LOST, 0)
  {
    LosingBegins();
    LosingEnds();
    ExecConcat(Initial(ONE), STARTS, LOSES);
  }

  lemma LosingBeforeShutdown()
    ensures BeforeShutdown(STARTS + LOSES)
  {
  }

  lemma ConservedFromInitial(limits: Limits, events: seq<Event>, s: State)
    requires BeforeShutdown(events) && Exec(Initial(limits), events) == s
    ensures WellFormed(s) && Conserved(s, limits)
  {
    InitialConserved(limits);
    ConservedFrom(Initial(limits), events, limits);
  }

  lemma LostConserved()
    ensures WellFormed(LOST) && Conserved(LOST, ONE)
  {
    LosingRunLoses();
    LosingBeforeShutdown();
    ConservedFromInitial(ONE, STARTS + LOSES, LOST);
  }

  /** From then on, in every continuation before shutdown that keeps to the limit, no
      other production execution is ever let through. */
  lemma LostPermitExample(more: seq<Event>)
    requires BeforeShutdown(more)
    ensures WellFormed(LOST) && WellFormed(Exec(LOST, more)) && |Exec(LOST, more).runs| > 0
    ensures var s := Exec(LOST, more);
            LimitHeld(s, ONE) ==>
              CountTickets(s.control.admitted, ProductionQueue) == 0 && OthersUnhandled(s.runs, 0, ProductionQueue) == 0
  {
    LostConserved();
    LosingRunLoses();
    LostPermit(LOST, more, 0, ONE, ProductionQueue);
    var s := Exec(LOST, more);
    ConservedFrom(LOST, more, ONE);
    SameRunAfter(LOST, more, 0);
    OnlyOne(s);
  }

  lemma OnlyOne(s: State)
    requires Conserved(s, ONE) && |s.runs| > 0 && !s.runs[0].handled && s.runs[0].mode == Webhook
    ensures LimitHeld(s, ONE) ==>
              CountTickets(s.control.admitted, ProductionQueue) == 0 && OthersUnhandled(s.runs, 0, ProductionQueue) == 0
  {
    UnhandledPermit(s, 0, ONE, ProductionQueue);
    if LimitHeld(s, ONE) {
      assert WithinLimit(s.control, Limit(ONE, ProductionQueue), ProductionQueue,
                         CountUnhandled(s.runs, ProductionQueue));
    }
  }

  // Limit one: an execution is admitted, and fails with a message that reads as a
  // cancellation.

  const REQUEST_CANCELLED := EFailed("a", OtherError("Request was " + "cancelled"), 0)

  lemma {:induction false} ContainsEnd(a: string, b: string)
    ensures Contains(a + b, b)
  {
    if a == [] {
      assert a + b == b;
    } else {
      assert (a + b)[1..] == a[1..] + b;
      ContainsEnd(a[1..], b);
    }
  }

  lemma CancelledIsDropped(s: State)
    requires WellFormed(s)
    ensures Exec(s, [REQUEST_CANCELLED]) == s
  {
    ContainsEnd("Request was ", "cancelled");
    assert Step(s, REQUEST_CANCELLED) == s;
    Runs.ExecCons(Step, s, REQUEST_CANCELLED, []);
  }

  lemma CancelledRuns()
    ensures WellFormed(RUNNING) && Exec(Initial(ONE), STARTS + [REQUEST_CANCELLED]) == RUNNING
  {
    LosingBegins();
    ExecConcat(Initial(ONE), STARTS, [REQUEST_CANCELLED]);
    CancelledIsDropped(RUNNING);
  }

  lemma RunningConserved()
    ensures WellFormed(RUNNING) && Conserved(RUNNING, ONE)
  {
    LosingBegins();
    ConservedFromInitial(ONE, STARTS, RUNNING);
  }

  /** From then on, in every continuation before shutdown that does not end it once more,
      its promise is pending and its entry stays, and within the limit no other production
      execution is ever let through. */
  lemma CancelledExample(more: seq<Event>)
    requires BeforeShutdown(more) && ExecutionRounds.Untouched(more, "a")
    ensures WellFormed(Exec(Initial(ONE), STARTS + [REQUEST_CANCELLED] + more))
    ensures var s := Exec(Initial(ONE), STARTS + [REQUEST_CANCELLED] + more);
            && "a" in s.active && |s.runs| > 0 && s.runs[0].post.Pending? && !s.runs[0].handled
            && (LimitHeld(s, ONE) ==>
                  && CountTickets(s.control.admitted, ProductionQueue) == 0
                  && OthersUnhandled(s.runs, 0, ProductionQueue) == 0)
  {
    CancelledRuns();
    RunningConserved();
    ExecConcat(Initial(ONE), STARTS + [REQUEST_CANCELLED], more);
    RunningUnended(more);
  }

  lemma RunningUnended(more: seq<Event>)
    requires BeforeShutdown(more) && ExecutionRounds.Untouched(more, "a")
    requires WellFormed(RUNNING) && Conserved(RUNNING, ONE)
    ensures WellFormed(Exec(RUNNING, more)) && "a" in Exec(RUNNING, more).active && |Exec(RUNNING, more).runs| > 0
    ensures var s := Exec(RUNNING, more);
            && s.runs[0].post.Pending? && !s.runs[0].handled
            && (LimitHeld(s, ONE) ==>
                  && CountTickets(s.control.admitted, ProductionQueue) == 0
                  && OthersUnhandled(s.runs, 0, ProductionQueue) == 0)
  {
    ExecutionRounds.UnendedRun(RUNNING, more, "a");
    ConservedFrom(RUNNING, more, ONE);
    SameRunAfter(RUNNING, more, 0);
    OnlyOne(Exec(RUNNING, more));
  }
}
