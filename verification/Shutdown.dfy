/** `ActiveExecutions.shutdown`: the first pass over the map, and when the loop that
    waits for the map to empty comes to an end. */
module Shutdown {
  import opened Wrappers
  import Runs
  import opened ConcurrencyControl
  import opened ExecutionLifecycle
  import opened ExecutionSafety

  /** The first loop, over the ids in `order`. */
  function VisitAll(s: State, order: seq<Id>, regular: bool, cancelAll: bool): (s': State)
    requires WellFormed(s)
    ensures WellFormed(s')
    decreases |order|
  {
    if order == [] then s
    else VisitAll(ShutdownVisit(s, order[0], regular, cancelAll), order[1..], regular, cancelAll)
  }

  ghost predicate Distinct(order: seq<Id>) {
    forall i, j :: 0 <= i < j < |order| ==> order[i] != order[j]
  }

  /** Whether the pass calls `stopExecution` for this entry. */
  predicate Selected(run: Run, regular: bool, cancelAll: bool) {
    run.response.Some? || (regular && cancelAll)
  }

  /** What the pass leaves of an entry, if anything. */
  function Remaining(run: Run, regular: bool, cancelAll: bool): Option<Run> {
    if run.status == Waiting || (run.status == New && !Selected(run, regular, cancelAll)) then None
    else if Selected(run, regular, cancelAll) then
      Some(run.(post := Reject(run.post), workflow := if run.workflow.Attached? then Attached(true) else Detached))
    else Some(run)
  }

  lemma VisitOne(s: State, id: Id, regular: bool, cancelAll: bool)
    requires WellFormed(s) && id in s.active
    ensures var s' := ShutdownVisit(s, id, regular, cancelAll);
            var left := Remaining(Entry(s, id), regular, cancelAll);
            && (id in s'.active <==> left.Some?)
            && (left.Some? ==> s'.active[id] == s.active[id] && Entry(s', id) == left.value)
  {
    if Selected(Entry(s, id), regular, cancelAll) {
      StopOne(s, id);
    }
  }

  lemma StopOne(s: State, id: Id)
    requires WellFormed(s) && id in s.active
    ensures var s', run := Stop(s, id), Entry(s, id);
            && (id in s'.active <==> run.status != Waiting)
            && (run.status != Waiting ==>
                  && s'.active[id] == s.active[id]
                  && Entry(s', id) == run.(workflow := if run.workflow.Attached? then Attached(true) else Detached,
                                           post := Reject(run.post)))
  {
  }

  lemma StopOther(s: State, id: Id, other: Id)
    requires WellFormed(s) && other != id
    ensures var s' := Stop(s, other);
            && (id in s'.active <==> id in s.active)
            && (id in s.active ==> s'.active[id] == s.active[id] && Entry(s', id) == Entry(s, id))
  {
    if id in s.active && other in s.active {
      assert s.runs[s.active[id]].id == id && s.runs[s.active[other]].id == other;
    }
  }

  lemma VisitOther(s: State, id: Id, other: Id, regular: bool, cancelAll: bool)
    requires WellFormed(s) && other != id
    ensures var s' := ShutdownVisit(s, other, regular, cancelAll);
            && (id in s'.active <==> id in s.active)
            && (id in s.active ==> s'.active[id] == s.active[id] && Entry(s', id) == Entry(s, id))
  {
    if other in s.active {
      StopOther(s, id, other);
    }
  }

  predicate Present(s: State, order: seq<Id>) {
    forall k :: 0 <= k < |order| ==> order[k] in s.active
  }

  lemma OthersStay(s: State, order: seq<Id>, regular: bool, cancelAll: bool)
    requires WellFormed(s) && Distinct(order) && order != [] && Present(s, order)
    ensures Distinct(order[1..]) && Present(ShutdownVisit(s, order[0], regular, cancelAll), order[1..])
  {
    forall k | 0 <= k < |order[1..]| { VisitOther(s, order[1..][k], order[0], regular, cancelAll); }
  }

  /** `toCancel`: the ids for which the pass called `stopExecution`. */
  function ToCancel(s: State, order: seq<Id>, regular: bool, cancelAll: bool): seq<Id>
    requires WellFormed(s)
    decreases |order|
  {
    if order == [] then []
    else (if order[0] in s.active && Selected(Entry(s, order[0]), regular, cancelAll) then [order[0]] else [])
         + ToCancel(ShutdownVisit(s, order[0], regular, cancelAll), order[1..], regular, cancelAll)
  }

  lemma ToCancelStep(s: State, order: seq<Id>, regular: bool, cancelAll: bool, before: seq<Id>)
    requires WellFormed(s) && order != [] && order[0] in s.active
    ensures before + ToCancel(s, order, regular, cancelAll)
         == (if Selected(Entry(s, order[0]), regular, cancelAll) then before + [order[0]] else before)
            + ToCancel(ShutdownVisit(s, order[0], regular, cancelAll), order[1..], regular, cancelAll)
  {
    var rest := ToCancel(ShutdownVisit(s, order[0], regular, cancelAll), order[1..], regular, cancelAll);
    assert before + ([order[0]] + rest) == (before + [order[0]]) + rest;
    assert [] + rest == rest;
  }

  /** With `rest` still to be visited from `s`, and `done` chosen so far, the pass over
      `order` from `start` is on its way. */
  ghost predicate Progress(start: State, order: seq<Id>, s: State, rest: seq<Id>, done: seq<Id>, regular: bool,
                           cancelAll: bool)
    requires WellFormed(start) && WellFormed(s)
  {
    && Distinct(rest) && Present(s, rest)
    && VisitAll(s, rest, regular, cancelAll) == VisitAll(start, order, regular, cancelAll)
    && done + ToCancel(s, rest, regular, cancelAll) == ToCancel(start, order, regular, cancelAll)
  }

  lemma ProgressStarts(s: State, order: seq<Id>, regular: bool, cancelAll: bool)
    requires WellFormed(s) && Distinct(order) && Present(s, order)
    ensures Progress(s, order, s, order, [], regular, cancelAll)
  {
    assert [] + ToCancel(s, order, regular, cancelAll) == ToCancel(s, order, regular, cancelAll);
  }

  /** One turn of the loop keeps it on its way. */
  lemma ProgressStep(start: State, order: seq<Id>, s: State, rest: seq<Id>, done: seq<Id>, regular: bool,
                     cancelAll: bool, s1: State, stopped: bool)
    requires WellFormed(start) && WellFormed(s) && Progress(start, order, s, rest, done, regular, cancelAll)
    requires rest != [] && rest[0] in s.active && s1 == ShutdownVisit(s, rest[0], regular, cancelAll)
    requires stopped <==> Selected(Entry(s, rest[0]), regular, cancelAll)
    ensures WellFormed(s1)
    ensures Progress(start, order, s1, rest[1..], if stopped then done + [rest[0]] else done, regular, cancelAll)
  {
    OthersStay(s, rest, regular, cancelAll);
    ToCancelStep(s, rest, regular, cancelAll, done);
  }

  lemma ProgressEnds(start: State, order: seq<Id>, s: State, done: seq<Id>, regular: bool, cancelAll: bool)
    requires WellFormed(start) && WellFormed(s) && Progress(start, order, s, [], done, regular, cancelAll)
    ensures s == VisitAll(start, order, regular, cancelAll) && done == ToCancel(start, order, regular, cancelAll)
  {
    assert done + [] == done;
  }

  /** They are the entries selected at the start, whatever the pass does before it meets
      them. */
  lemma {:induction false} ToCancelIff(s: State, order: seq<Id>, id: Id, regular: bool, cancelAll: bool)
    requires WellFormed(s) && Distinct(order)
    ensures id in ToCancel(s, order, regular, cancelAll) <==>
              id in order && id in s.active && Selected(Entry(s, id), regular, cancelAll)
    decreases |order|
  {
    if order != [] {
      ToCancelIff(ShutdownVisit(s, order[0], regular, cancelAll), order[1..], id, regular, cancelAll);
      if id != order[0] {
        VisitOther(s, id, order[0], regular, cancelAll);
      } else {
        assert id !in order[1..];
      }
    }
  }

  lemma {:induction false} VisitAllOther(s: State, order: seq<Id>, id: Id, regular: bool, cancelAll: bool)
    requires WellFormed(s) && id !in order
    ensures var s' := VisitAll(s, order, regular, cancelAll);
            && (id in s'.active <==> id in s.active)
            && (id in s.active ==> s'.active[id] == s.active[id] && Entry(s', id) == Entry(s, id))
    decreases |order|
  {
    if order != [] {
      VisitOther(s, id, order[0], regular, cancelAll);
      VisitAllOther(ShutdownVisit(s, order[0], regular, cancelAll), order[1..], id, regular, cancelAll);
    }
  }

  /** The pass, entry by entry: waiting entries and unselected new ones are gone,
      selected ones are cancelled with their handler pending, the others untouched.
      No id is looked up after its entry is gone. */
  lemma {:induction false} PassResult(s: State, order: seq<Id>, id: Id, regular: bool, cancelAll: bool)
    requires WellFormed(s) && Distinct(order) && id in order && id in s.active
    ensures var s' := VisitAll(s, order, regular, cancelAll);
            var left := Remaining(Entry(s, id), regular, cancelAll);
            && (id in s'.active <==> left.Some?)
            && (left.Some? ==> s'.active[id] == s.active[id] && Entry(s', id) == left.value)
    ensures forall k: nat :: k < |order| && order[k] == id ==>
              id in VisitAll(s, order[..k], regular, cancelAll).active
    decreases |order|
  {
    var s1 := ShutdownVisit(s, order[0], regular, cancelAll);
    forall k: nat | k < |order| && order[k] == id
      ensures id in VisitAll(s, order[..k], regular, cancelAll).active
    {
      VisitAllOther(s, order[..k], id, regular, cancelAll);
    }
    if order[0] == id {
      VisitOne(s, id, regular, cancelAll);
      VisitAllOther(s1, order[1..], id, regular, cancelAll);
    } else {
      VisitOther(s, id, order[0], regular, cancelAll);
      PassResult(s1, order[1..], id, regular, cancelAll);
    }
  }

  /** Entries go, none comes or changes its run, and what is no entry stays as it is. */
  ghost predicate OnlyRemoves(s: State, s': State)
    requires WellFormed(s) && WellFormed(s')
  {
    && |s'.runs| == |s.runs|
    && (forall id :: id in s'.active ==> id in s.active && s'.active[id] == s.active[id])
    && (forall r: nat :: r < |s.runs| ==>
          s'.runs[r].id == s.runs[r].id && (!IsEntry(s, r) ==> s'.runs[r] == s.runs[r]))
  }

  lemma OnlyRemovesTransitive(s: State, s1: State, s2: State)
    requires WellFormed(s) && WellFormed(s1) && WellFormed(s2)
    requires OnlyRemoves(s, s1) && OnlyRemoves(s1, s2)
    ensures OnlyRemoves(s, s2)
  {
    forall r: nat | r < |s.runs| && !IsEntry(s, r)
      ensures s2.runs[r] == s.runs[r]
    {
      assert !IsEntry(s1, r);
    }
  }

  lemma VisitOnlyRemoves(s: State, id: Id, regular: bool, cancelAll: bool)
    requires WellFormed(s)
    ensures OnlyRemoves(s, ShutdownVisit(s, id, regular, cancelAll))
  {
  }

  lemma {:induction false} PassOnlyRemoves(s: State, order: seq<Id>, regular: bool, cancelAll: bool)
    requires WellFormed(s)
    ensures OnlyRemoves(s, VisitAll(s, order, regular, cancelAll))
    decreases |order|
  {
    if order != [] {
      var s1 := ShutdownVisit(s, order[0], regular, cancelAll);
      VisitOnlyRemoves(s, order[0], regular, cancelAll);
      PassOnlyRemoves(s1, order[1..], regular, cancelAll);
      OnlyRemovesTransitive(s, s1, VisitAll(s1, order[1..], regular, cancelAll));
    }
  }

  // ---------------------------------------------------------------------------
  // The wait loop
  // ---------------------------------------------------------------------------

  /** No settle handler but an entry's own will remove it. */
  ghost predicate Exclusive(s: State) {
    forall r: nat :: r < |s.runs| && s.runs[r].id in s.active && !IsEntry(s, r) ==>
      s.runs[r].handled || s.runs[r].status == Waiting || s.runs[r].post.Pending?
  }

  lemma PassExclusive(s: State, order: seq<Id>, regular: bool, cancelAll: bool)
    requires WellFormed(s) && Tracked(s)
    ensures Exclusive(VisitAll(s, order, regular, cancelAll))
  {
    PassOnlyRemoves(s, order, regular, cancelAll);
    var s' := VisitAll(s, order, regular, cancelAll);
    forall r: nat | r < |s'.runs| && s'.runs[r].id in s'.active && !IsEntry(s', r)
      ensures s'.runs[r].handled || s'.runs[r].status == Waiting || s'.runs[r].post.Pending?
    {
      assert s'.active[s'.runs[r].id] == s.active[s'.runs[r].id];
      assert !IsEntry(s, r);
      assert Released(s.runs[r]);
    }
  }

  /** The event takes `id` out of the map: the handler of its run finds a status other
      than waiting, or it is removed while waiting. */
  predicate Leaves(s: State, e: Event, id: Id)
    requires WellFormed(s)
  {
    && id in s.active
    && ((e.ESettled? && e.r == s.active[id] && !Entry(s, id).handled
         && !Entry(s, id).post.Pending? && Entry(s, id).status != Waiting)
        || Unlinks(s, e, id))
  }

  lemma WaitStepSettled(s: State, r: nat)
    requires WellFormed(s) && Exclusive(s)
    ensures Exclusive(OnSettled(s, r))
    ensures forall id :: id in OnSettled(s, r).active <==> id in s.active && !Leaves(s, ESettled(r), id)
  {
    var s' := OnSettled(s, r);
    if r < |s.runs| && !s.runs[r].handled && !s.runs[r].post.Pending? && s.runs[r].status != Waiting {
      assert IsEntry(s, r) || s.runs[r].id !in s.active;
    }
    forall q: nat | q < |s'.runs| && s'.runs[q].id in s'.active && !IsEntry(s', q)
      ensures s'.runs[q].handled || s'.runs[q].status == Waiting || s'.runs[q].post.Pending?
    {
      assert !IsEntry(s, q);
    }
  }

  lemma WaitStepEntries(s: State, s': State)
    requires WellFormed(s) && Exclusive(s) && OnlyEntries(s, s')
    ensures Exclusive(s')
  {
    forall q: nat | q < |s'.runs| && s'.runs[q].id in s'.active && !IsEntry(s', q)
      ensures s'.runs[q].handled || s'.runs[q].status == Waiting || s'.runs[q].post.Pending?
    {
      assert !IsEntry(s, q);
    }
  }

  lemma WaitStepUnlink(s: State, s': State, id: Id)
    requires WellFormed(s) && WellFormed(s') && Exclusive(s) && s'.runs == s.runs && s'.active == s.active - {id}
    ensures Exclusive(s')
  {
    forall q: nat | q < |s'.runs| && s'.runs[q].id in s'.active && !IsEntry(s', q)
      ensures s'.runs[q].handled || s'.runs[q].status == Waiting || s'.runs[q].post.Pending?
    {
      assert !IsEntry(s, q);
    }
  }

  lemma WaitStepStop(s: State, id: Id)
    requires WellFormed(s) && Exclusive(s)
    ensures Exclusive(Stop(s, id))
    ensures forall x :: x in Stop(s, id).active <==> x in s.active && !Leaves(s, EStop(id), x)
  {
    if id in s.active && Entry(s, id).status == Waiting {
      WaitStepUnlink(s, Stop(s, id), id);
    } else {
      WaitStepEntries(s, Stop(s, id));
    }
  }

  lemma WaitStepVisit(s: State, id: Id, regular: bool, cancelAll: bool)
    requires WellFormed(s) && Exclusive(s)
    ensures Exclusive(ShutdownVisit(s, id, regular, cancelAll))
    ensures forall x :: x in ShutdownVisit(s, id, regular, cancelAll).active
                   <==> x in s.active && !Leaves(s, EShutdownVisit(id, regular, cancelAll), x)
  {
    if id in s.active && Unlinks(s, EShutdownVisit(id, regular, cancelAll), id) {
      WaitStepUnlink(s, ShutdownVisit(s, id, regular, cancelAll), id);
    } else {
      WaitStepEntries(s, ShutdownVisit(s, id, regular, cancelAll));
    }
  }

  /** With no further adds an id stays in the map until an event makes it leave. */
  lemma WaitStep(s: State, e: Event)
    requires WellFormed(s) && Exclusive(s) && !e.EAdd?
    ensures Exclusive(Apply(s, e))
    ensures forall id :: id in Apply(s, e).active <==> id in s.active && !Leaves(s, e, id)
  {
    if e.ESettled? {
      WaitStepSettled(s, e.r);
    } else if e.EStop? {
      WaitStepStop(s, e.id);
    } else if e.EShutdownVisit? {
      WaitStepVisit(s, e.id, e.regular, e.cancelAll);
    } else {
      WaitStepEntries(s, Apply(s, e));
    }
  }

  ghost predicate NoAdds(events: seq<Event>) {
    forall k :: 0 <= k < |events| ==> !events[k].EAdd?
  }

  ghost predicate LeavesWithin(s: State, events: seq<Event>, id: Id, n: nat)
    requires WellFormed(s) && n <= |events|
  {
    exists k: nat :: k < n && Leaves(After(s, events, k), events[k], id)
  }

  lemma WaitAfter(s: State, events: seq<Event>, n: nat)
    requires WellFormed(s) && n < |events| && NoAdds(events) && Exclusive(After(s, events, n))
    ensures Exclusive(After(s, events, n + 1))
    ensures forall id :: id in After(s, events, n + 1).active
                    <==> id in After(s, events, n).active && !Leaves(After(s, events, n), events[n], id)
  {
    AfterStep(s, events, n);
    WaitStep(After(s, events, n), events[n]);
  }

  lemma LeavesWithinStep(s: State, events: seq<Event>, id: Id, n: nat)
    requires WellFormed(s) && n < |events|
    ensures LeavesWithin(s, events, id, n + 1)
       <==> LeavesWithin(s, events, id, n) || Leaves(After(s, events, n), events[n], id)
  {
    if LeavesWithin(s, events, id, n + 1) {
      var k: nat :| k < n + 1 && Leaves(After(s, events, k), events[k], id);
    }
  }

  lemma {:induction false} WaitUpTo(s: State, events: seq<Event>, id: Id, n: nat)
    requires WellFormed(s) && Exclusive(s) && NoAdds(events) && n <= |events|
    ensures Exclusive(After(s, events, n))
    ensures id in After(s, events, n).active <==> id in s.active && !LeavesWithin(s, events, id, n)
    decreases n
  {
    if n == 0 {
      AfterAll(s, events);
    } else {
      WaitUpTo(s, events, id, n - 1);
      WaitAfter(s, events, n - 1);
      LeavesWithinStep(s, events, id, n - 1);
    }
  }

  /** With no further adds the wait loop finds an empty map if and only if every entry
      left by the pass has meanwhile left it: by its handler in a status other than
      waiting, or by a stop while waiting. */
  lemma WaitEndsIff(s: State, events: seq<Event>)
    requires WellFormed(s) && Exclusive(s) && NoAdds(events)
    ensures WellFormed(Exec(s, events))
    ensures Exec(s, events).active == map[]
       <==> forall id :: id in s.active ==> LeavesWithin(s, events, id, |events|)
  {
    AfterAll(s, events);
    forall id
      ensures id in Exec(s, events).active <==> id in s.active && !LeavesWithin(s, events, id, |events|)
    {
      WaitUpTo(s, events, id, |events|);
    }
  }

  /** A run whose handler found it waiting has no handler left to remove it: the wait
      loop goes on until something stops the execution. */
  lemma {:induction false} WaitingRunBlocks(s: State, events: seq<Event>, id: Id)
    requires WellFormed(s) && Exclusive(s) && id in s.active && Entry(s, id).handled
    requires forall k :: 0 <= k < |events| ==> !events[k].EAdd? && !events[k].EStop? && !events[k].EShutdownVisit?
    ensures WellFormed(Exec(s, events)) && id in Exec(s, events).active
    decreases |events|
  {
    if events != [] {
      var s1 := Apply(s, events[0]);
      WaitStep(s, events[0]);
      assert !Leaves(s, events[0], id);
      assert SameRun(s.runs[s.active[id]], s1.runs[s.active[id]]);
      StaysSameEntry(s, events[0], id);
      WaitingRunBlocks(s1, events[1..], id);
    }
  }

  lemma StaysSameEntry(s: State, e: Event, id: Id)
    requires WellFormed(s) && id in s.active && id in Apply(s, e).active && !e.EAdd?
    ensures Apply(s, e).active[id] == s.active[id]
  {
  }

  // A run that turns waiting after the pass.

  const ADDS := [EThrottle(Ticket("a", Webhook)), EAdd(0, 0)]

  const PASSES := [EDisable, EShutdownVisit("a", true, false)]

  const WAITS := [ESetStatus("a", Waiting), EFinalize("a", None)]

  const BLOCKING_RUN := ADDS + (PASSES + (WAITS + [ESettled(0)]))

  function OneEntry(enabled: bool, status: Status, post: Deferred<Option<RunData>>, handled: bool): State {
    State([Run("a", Webhook, 0, status, post, None, Detached, handled)], map["a" := 0], map[],
          Control(enabled, map[], []))
  }

  const STARTED := State([], map[], map[], Control(true, map[], []))

  const BLOCKED := OneEntry(false, Waiting, Resolved(None), true)

  lemma BlockingAdds()
    ensures WellFormed(STARTED) && Exec(STARTED, ADDS) == OneEntry(true, Running, Pending, false)
  {
    var s1 := STARTED.(control := Control(true, map[], [Ticket("a", Webhook)]));
    assert Apply(STARTED, ADDS[0]) == s1;
    assert s1.control.admitted[..0] + s1.control.admitted[1..] == [];
    ExecTwo(STARTED, ADDS[0], s1, ADDS[1]);
  }

  lemma BlockingPasses()
    ensures WellFormed(OneEntry(true, Running, Pending, false))
    ensures Exec(OneEntry(true, Running, Pending, false), PASSES) == OneEntry(false, Running, Pending, false)
  {
    var s, s1 := OneEntry(true, Running, Pending, false), OneEntry(false, Running, Pending, false);
    ExecTwo(s, PASSES[0], s1, PASSES[1]);
  }

  lemma BlockingWaits()
    ensures WellFormed(OneEntry(false, Running, Pending, false))
    ensures Exec(OneEntry(false, Running, Pending, false), WAITS) == OneEntry(false, Waiting, Resolved(None), false)
  {
    var s, s1 := OneEntry(false, Running, Pending, false), OneEntry(false, Waiting, Pending, false);
    ExecTwo(s, WAITS[0], s1, WAITS[1]);
  }

  lemma BlockingSettles()
    ensures WellFormed(OneEntry(false, Waiting, Resolved(None), false)) && WellFormed(BLOCKED)
    ensures Exec(OneEntry(false, Waiting, Resolved(None), false), [ESettled(0)]) == BLOCKED
  {
    Runs.ExecCons(Step, OneEntry(false, Waiting, Resolved(None), false), ESettled(0), []);
  }

  /** Runs one after the other. */
  lemma ExecThrough(s: State, a: seq<Event>, s1: State, b: seq<Event>, s2: State)
    requires WellFormed(s) && Exec(s, a) == s1 && WellFormed(s1) && Exec(s1, b) == s2
    ensures Exec(s, a + b) == s2
  {
    ExecConcat(s, a, b);
  }

  lemma BlockingRunBlocks()
    ensures WellFormed(STARTED) && Exec(STARTED, BLOCKING_RUN) == BLOCKED
  {
    BlockingAdds();
    BlockingRest();
    ExecThrough(STARTED, ADDS, OneEntry(true, Running, Pending, false), PASSES + (WAITS + [ESettled(0)]), BLOCKED);
  }

  lemma BlockingRest()
    ensures WellFormed(OneEntry(true, Running, Pending, false)) && WellFormed(BLOCKED)
    ensures Exec(OneEntry(true, Running, Pending, false), PASSES + (WAITS + [ESettled(0)])) == BLOCKED
  {
    BlockingPasses();
    BlockingWaits();
    BlockingSettles();
    ExecThrough(OneEntry(false, Running, Pending, false), WAITS, OneEntry(false, Waiting, Resolved(None), false),
                [ESettled(0)], BLOCKED);
    ExecThrough(OneEntry(true, Running, Pending, false), PASSES, OneEntry(false, Running, Pending, false),
                WAITS + [ESettled(0)], BLOCKED);
  }

  /** An execution turns waiting after the pass and settles: in every continuation without
      adds and stops the wait loop goes on. */
  lemma BlockedShutdownExample(more: seq<Event>)
    requires forall k :: 0 <= k < |more| ==> !more[k].EAdd? && !more[k].EStop? && !more[k].EShutdownVisit?
    ensures WellFormed(STARTED) && WellFormed(Exec(STARTED, BLOCKING_RUN + more))
    ensures "a" in Exec(STARTED, BLOCKING_RUN + more).active
  {
    BlockingRunBlocks();
    ExecConcat(STARTED, BLOCKING_RUN, more);
    BlockedFrom(BLOCKED, more);
  }

  lemma BlockedFrom(s: State, more: seq<Event>)
    requires s == BLOCKED
    requires forall k :: 0 <= k < |more| ==> !more[k].EAdd? && !more[k].EStop? && !more[k].EShutdownVisit?
    ensures WellFormed(s) && WellFormed(Exec(s, more)) && "a" in Exec(s, more).active
  {
    WaitingRunBlocks(s, more, "a");
  }
}
