/** Retries that outlive a deactivation: when a workflow that is taken down stays down. */
module Deactivation {
  import opened Wrappers
  import Runs
  import opened WorkflowActivation
  import opened ActivationSafety

  /** Taking a workflow down: the call, and in multi-main the leader's handler. */
  function TakeDown(m: Manager, w: WorkflowId, closes: bool): Manager {
    if m.isMultiMain then HandleRemove(Remove(m, w, closes), w, closes) else Remove(m, w, closes)
  }

  /** The event starts the workflow anew, or makes its running trigger fail. */
  predicate Activates(e: Event, w: WorkflowId) {
    match e
    case EAdd(workflow, _, _, _) => workflow.id == w
    case ETriggerError(workflow, _, _, _) => workflow.id == w
    case EActivate(id, _, _) => id == w
    case _ => false
  }

  predicate LeftAlone(events: seq<Event>, w: WorkflowId) {
    forall k :: 0 <= k < |events| ==> !Activates(events[k], w)
  }

  /** A timer of `w`, perhaps one that its queue entry has forgotten. */
  predicate IsTimerOf(m: Manager, t: TimerId, w: WorkflowId) {
    t in m.timers && m.timers[t].workflow.id == w
  }

  /** The timer would start a retry, and the queue entry, by which `remove` clears it, does
      not have it. */
  predicate Forgotten(m: Manager, t: TimerId, w: WorkflowId) {
    && IsTimerOf(m, t, w) && !(w in m.queued && m.queued[w].timer == t)
    && !SkippedAsInactive(m.timers[t].workflow, m.timers[t].mode)
  }

  /** The retry has still to place its workflow. */
  predicate WillPlace(m: Manager, t: TimerId, w: WorkflowId) {
    t in m.retrying && m.retrying[t].workflow.id == w && m.retrying[t].asLeader && !m.retrying[t].dequeued
  }

  /** Deactivating leaves a timer of the workflow armed exactly in multi-main, where it later
      publishes the command that activates it again, or if the queue entry does not have
      it. */
  lemma TakeDownCancelsRetryIff(m: Manager, w: WorkflowId, closes: bool, t: TimerId)
    ensures IsTimerOf(TakeDown(m, w, closes), t, w) <==>
              IsTimerOf(m, t, w) && (m.isMultiMain || !(w in m.queued && m.queued[w].timer == t))
    ensures m.isMultiMain && IsTimerOf(m, t, w) ==>
              var m1 := TakeDown(m, w, closes);
              Fire(m1, t).published == m1.published + [AddCommand(w)]
  {
  }

  /** The workflow stays out of memory whatever happens, until it is activated anew. */
  ghost predicate StaysOut(m: Manager, w: WorkflowId) {
    forall events :: LeftAlone(events, w) ==> w !in Exec(m, events).memory
  }

  /** Not in memory, not queued, and no retry to come that would place it. */
  ghost predicate Quiet(m: Manager, w: WorkflowId) {
    && !m.isMultiMain && w !in m.memory && w !in m.queued
    && (forall t :: IsTimerOf(m, t, w) ==> SkippedAsInactive(m.timers[t].workflow, m.timers[t].mode))
    && (forall t :: !WillPlace(m, t, w))
  }

  lemma RemoveQueuedQuiet(m: Manager, id: WorkflowId, w: WorkflowId)
    requires Quiet(m, w)
    ensures Quiet(RemoveQueued(m, id), w)
  {
    var m1 := RemoveQueued(m, id);
    assert forall t :: IsTimerOf(m1, t, w) ==> IsTimerOf(m, t, w);
    assert forall t :: WillPlace(m1, t, w) ==> WillPlace(m, t, w);
  }

  lemma SetTimeoutQuiet(m: Manager, timer: Timer, w: WorkflowId)
    requires Quiet(m, w) && timer.workflow.id != w
    ensures Quiet(SetTimeout(m, timer), w)
  {
    var m1 := SetTimeout(m, timer);
    assert forall t :: IsTimerOf(m1, t, w) ==> IsTimerOf(m, t, w);
    assert forall t :: WillPlace(m1, t, w) ==> WillPlace(m, t, w);
  }

  /** What a step of other workflows may do to the rest. */
  lemma OthersQuiet(m: Manager, m': Manager, w: WorkflowId)
    requires Quiet(m, w) && m'.timers == m.timers && m'.isMultiMain == m.isMultiMain
    requires w in m'.memory ==> w in m.memory
    requires w in m'.queued ==> w in m.queued
    requires forall t :: t in m'.retrying && m'.retrying[t].workflow.id == w ==>
               (t in m.retrying && m.retrying[t] == m'.retrying[t]) || m'.retrying[t].dequeued
    ensures Quiet(m', w)
  {
    assert forall t :: IsTimerOf(m', t, w) ==> IsTimerOf(m, t, w);
    assert forall t :: WillPlace(m', t, w) ==> WillPlace(m, t, w);
  }

  lemma AddQueuedQuiet(m: Manager, mode: ActivateMode, workflow: Workflow, w: WorkflowId)
    requires Quiet(m, w) && workflow.id != w
    ensures Quiet(AddQueued(m, mode, workflow), w)
  {
    RemoveQueuedQuiet(m, workflow.id, w);
    var m1 := RemoveQueued(m, workflow.id);
    var m2 := m1.(queued := m1.queued[workflow.id := Queued(mode, INITIAL_TIMEOUT, m1.nextTimer, workflow)]);
    OthersQuiet(m1, m2, w);
    SetTimeoutQuiet(m2, Timer(mode, workflow, INITIAL_TIMEOUT), w);
  }

  lemma AddQuiet(m: Manager, workflow: Workflow, mode: ActivateMode, shouldPublish: bool, outcome: Outcome,
                 w: WorkflowId)
    requires Quiet(m, w) && workflow.id != w
    ensures Quiet(Add(m, workflow, mode, shouldPublish, outcome).0, w)
  {
    var id := workflow.id;
    var m1 := Install(m, id, outcome);
    PlaceKeepsTimers(m, m.isLeader, id, PlacementOf(outcome));
    OthersQuiet(m, m1, w);
    RemoveQueuedQuiet(m1, id, w);
    if outcome.FailsBefore? {
      OthersQuiet(m1, Book(m1, id, outcome), w);
    } else {
      OthersQuiet(RemoveQueued(m1, id), Book(m1, id, outcome), w);
    }
  }

  lemma ActivateQuiet(m: Manager, id: WorkflowId, mode: ActivateMode, attempt: Attempt, w: WorkflowId)
    requires Quiet(m, w) && id != w
    ensures Quiet(ActivateWorkflow(m, id, mode, attempt), w)
  {
    if attempt.Found? {
      var workflow := Workflow(id, attempt.active);
      AddQuiet(m, workflow, mode, false, attempt.outcome, w);
      AddQueuedQuiet(Add(m, workflow, mode, false, attempt.outcome).0, Init, workflow, w);
    }
  }

  lemma FireQuiet(m: Manager, t: TimerId, w: WorkflowId)
    requires Quiet(m, w)
    ensures Quiet(Fire(m, t), w)
  {
    var m1 := Fire(m, t);
    assert forall u :: IsTimerOf(m1, u, w) ==> IsTimerOf(m, u, w);
    assert t in m.timers && m.timers[t].workflow.id == w ==> IsTimerOf(m, t, w);
    assert forall u :: WillPlace(m1, u, w) ==> WillPlace(m, u, w);
  }

  lemma DequeueQuiet(m: Manager, t: TimerId, installed: bool, w: WorkflowId)
    requires Quiet(m, w)
    ensures Quiet(Dequeue(m, t, installed), w)
  {
    if t in m.retrying && !m.retrying[t].dequeued {
      assert !WillPlace(m, t, w);
      var id, placement := m.retrying[t].workflow.id, if installed then Placed else Untouched;
      var m1 := Place(m, m.retrying[t].asLeader, id, placement);
      PlaceKeepsTimers(m, m.retrying[t].asLeader, id, placement);
      OthersQuiet(m, m1, w);
      RemoveQueuedQuiet(m1, id, w);
      OthersQuiet(RemoveQueued(m1, id), Dequeue(m, t, installed), w);
    }
  }

  lemma EndQuiet(m: Manager, t: TimerId, end: End, w: WorkflowId)
    requires Quiet(m, w)
    ensures Quiet(EndRetry(m, t, end), w)
  {
    if CanEnd(m, t, end) {
      assert !WillPlace(m, t, w);
      var flight, m1 := m.retrying[t], Failed(m, t, end);
      if end.FailedBefore? {
        PlaceKeepsTimers(m.(retrying := m.retrying - {t}), flight.asLeader, flight.workflow.id, end.placement);
      }
      OthersQuiet(m, m1, w);
      if !end.Worked? && flight.workflow.id in m1.queued {
        RearmQuiet(m1, flight.mode, flight.workflow, w);
      }
    }
  }

  lemma RearmQuiet(m: Manager, mode: ActivateMode, workflow: Workflow, w: WorkflowId)
    requires Quiet(m, w) && workflow.id in m.queued
    ensures Quiet(Rearm(m, mode, workflow), w)
  {
    var entry := m.queued[workflow.id];
    var lastTimeout := NextTimeout(entry.lastTimeout);
    var m1 := m.(queued := m.queued[workflow.id := entry.(lastTimeout := lastTimeout, timer := m.nextTimer)]);
    OthersQuiet(m, m1, w);
    SetTimeoutQuiet(m1, Timer(mode, workflow, lastTimeout), w);
  }

  lemma RemoveQuiet(m: Manager, id: WorkflowId, closes: bool, w: WorkflowId)
    requires Quiet(m, w)
    ensures Quiet(Remove(m, id, closes), w)
  {
    OthersQuiet(m, Deregister(m, id), w);
    RemoveQueuedQuiet(Deregister(m, id), id, w);
    var m1 := RemoveQueued(Deregister(m, id), id);
    OthersQuiet(m1, Unload(m1, id, closes), w);
  }

  lemma QuietStep(m: Manager, e: Event, w: WorkflowId)
    requires Quiet(m, w) && !Activates(e, w)
    ensures Quiet(Apply(m, e), w)
  {
    match e
    case EAdd(workflow, mode, shouldPublish, outcome) => AddQuiet(m, workflow, mode, shouldPublish, outcome, w);
    case EFire(t) => FireQuiet(m, t, w);
    case EDequeue(t, installed) => DequeueQuiet(m, t, installed, w);
    case EEnd(t, end) => EndQuiet(m, t, end, w);
    case ETriggerError(workflow, mode, message, closes) =>
      OthersQuiet(m, Register(Unload(m, workflow.id, closes), workflow.id, message), w);
      AddQueuedQuiet(Register(Unload(m, workflow.id, closes), workflow.id, message), mode, workflow, w);
    case ERemove(id, closes) => RemoveQuiet(m, id, closes, w);
    case EHandleRemove(id, closes) => OthersQuiet(m, HandleRemove(m, id, closes), w);
    case EActivate(id, mode, attempt) => ActivateQuiet(m, id, mode, attempt, w);
    case EClearErrors => OthersQuiet(m, ClearErrors(m), w);
  }

  lemma {:induction false} QuietRun(m: Manager, events: seq<Event>, w: WorkflowId)
    requires Quiet(m, w) && LeftAlone(events, w)
    ensures Quiet(Exec(m, events), w)
    decreases |events|
  {
    if events != [] {
      assert !Activates(events[0], w);
      QuietStep(m, events[0], w);
      assert forall k :: 0 <= k < |events[1..]| ==> events[1..][k] == events[k + 1];
      QuietRun(Apply(m, events[0]), events[1..], w);
    }
  }

  /** In single-main a workflow that is removed stays out of memory in every continuation
      that does not activate it anew, if and only if its close functions work, no timer of
      it is armed that its queue entry has forgotten, and no retry of it has still to place
      it. */
  lemma RemovalHoldsIff(m: Manager, w: WorkflowId, closes: bool)
    requires !m.isMultiMain && m.isLeader
    ensures StaysOut(Remove(m, w, closes), w) <==>
              && (closes || w !in m.memory)
              && (forall t :: !Forgotten(m, t, w)) && (forall t :: !WillPlace(m, t, w))
  {
    var m1 := Remove(m, w, closes);
    forall t { TakeDownCancelsRetryIff(m, w, closes, t); }
    assert m1.timers == if w in m.queued then m.timers - {m.queued[w].timer} else m.timers;
    assert m1.retrying == m.retrying && m1.isLeader && !m1.isMultiMain && w !in m1.queued;
    assert w in m1.memory <==> w in m.memory && !closes;
    assert forall t :: Forgotten(m, t, w) <==>
                         IsTimerOf(m1, t, w) && !SkippedAsInactive(m1.timers[t].workflow, m1.timers[t].mode);
    assert forall t :: WillPlace(m, t, w) <==> WillPlace(m1, t, w);
    if w in m1.memory {
      assert LeftAlone([], w) && Exec(m1, []) == m1;
    } else if t :| Forgotten(m, t, w) {
      ForgottenReturns(m1, t, w);
    } else if t :| WillPlace(m, t, w) {
      RetryReturns(m1, t, w);
    } else {
      assert Quiet(m1, w);
      forall events | LeftAlone(events, w) { QuietRun(m1, events, w); }
    }
  }

  lemma RetryReturns(m: Manager, t: TimerId, w: WorkflowId)
    requires WillPlace(m, t, w)
    ensures !StaysOut(m, w)
  {
    var events := [EDequeue(t, true)];
    Runs.ExecCons(Apply, m, events[0], []);
    assert LeftAlone(events, w) && w in Exec(m, events).memory;
  }

  lemma ForgottenReturns(m: Manager, t: TimerId, w: WorkflowId)
    requires IsTimerOf(m, t, w) && !SkippedAsInactive(m.timers[t].workflow, m.timers[t].mode)
    requires !m.isMultiMain && m.isLeader
    ensures !StaysOut(m, w)
  {
    var events := [EFire(t), EDequeue(t, true)];
    Runs.ExecTwo(Apply, m, events[0], events[1]);
    assert WillPlace(Fire(m, t), t, w);
    assert LeftAlone(events, w) && w in Exec(m, events).memory;
  }

  /** A workflow that is removed while its retry is under way is running again when that
      retry works. */
  lemma RemovedDuringRetryExample(w: Workflow, message: string)
    requires w.active
    ensures w.id in Exec(Initial(false, true),
                         [ETriggerError(w, Activate, message, true), EFire(0), ERemove(w.id, true),
                          EDequeue(0, true)]).memory
  {
    var m0 := Initial(false, true);
    var e0, e1, e2, e3 := ETriggerError(w, Activate, message, true), EFire(0), ERemove(w.id, true), EDequeue(0, true);
    var m2 := Apply(Apply(m0, e0), e1);
    assert m2.retrying == map[0 := Flight(Activate, w, true, false)];
    Runs.ExecFour(Apply, m0, e0, e1, e2, e3);
  }

  /** Of two timers of one workflow a removal clears one, and the other brings the workflow
      back. */
  lemma ForgottenTimerExample(w: Workflow, message: string)
    requires w.active
    ensures var m := Exec(Initial(false, true),
                          [ETriggerError(w, Activate, message, true), EFire(0),
                           ETriggerError(w, Activate, message, true),
                           EEnd(0, FailedBefore(Untouched, message))]);
            && Handles(m)
            && !Armed(Remove(m, w.id, true), w.id) && !StaysOut(Remove(m, w.id, true), w.id)
  {
    var m0 := Initial(false, true);
    var e0, e1, e3 := ETriggerError(w, Activate, message, true), EFire(0), EEnd(0, FailedBefore(Untouched, message));
    TwoTimersExample(w, message);
    var m := Exec(m0, [e0, e1, e0, e3]);
    HandlesRun(m0, [e0, e1, e0, e3]);
    assert Forgotten(m, 1, w.id);
    RemovalHoldsIff(m, w.id, true);
  }

  // In multi-main a retry publishes the command to activate its workflow.

  function Asked(m: Manager, w: WorkflowId): nat {
    multiset(m.published)[AddCommand(w)]
  }

  /** No activation of the workflow is asked for, until it is activated anew. */
  ghost predicate StaysUnasked(m: Manager, w: WorkflowId) {
    forall events :: LeftAlone(events, w) ==> Asked(Exec(m, events), w) == Asked(m, w)
  }

  /** In multi-main retries only publish. */
  predicate OnlyPublishes(m: Manager) {
    m.isMultiMain && m.retrying == map[]
  }

  ghost predicate Disarmed(m: Manager, w: WorkflowId) {
    OnlyPublishes(m) && forall t :: !IsTimerOf(m, t, w)
  }

  lemma DisarmedSame(m: Manager, m': Manager, w: WorkflowId)
    requires Disarmed(m, w) && OnlyPublishes(m') && forall t :: t in m'.timers ==>
               (t in m.timers && m'.timers[t] == m.timers[t]) || m'.timers[t].workflow.id != w
    ensures Disarmed(m', w)
  {
    assert forall t :: IsTimerOf(m', t, w) ==> IsTimerOf(m, t, w);
  }

  lemma AddQueuedDisarmed(m: Manager, mode: ActivateMode, workflow: Workflow, w: WorkflowId)
    requires Disarmed(m, w) && workflow.id != w
    ensures Disarmed(AddQueued(m, mode, workflow), w) && AddQueued(m, mode, workflow).published == m.published
  {
    DisarmedSame(m, AddQueued(m, mode, workflow), w);
  }

  lemma AddDisarmed(m: Manager, workflow: Workflow, mode: ActivateMode, shouldPublish: bool, outcome: Outcome,
                    w: WorkflowId)
    requires Disarmed(m, w) && workflow.id != w
    ensures var m1 := Add(m, workflow, mode, shouldPublish, outcome).0;
            Disarmed(m1, w) && Asked(m1, w) == Asked(m, w)
  {
    PlaceKeepsTimers(m, m.isLeader, workflow.id, PlacementOf(outcome));
    DisarmedSame(m, Add(m, workflow, mode, shouldPublish, outcome).0, w);
  }

  lemma ActivateDisarmed(m: Manager, id: WorkflowId, mode: ActivateMode, attempt: Attempt, w: WorkflowId)
    requires Disarmed(m, w) && id != w
    ensures var m1 := ActivateWorkflow(m, id, mode, attempt);
            Disarmed(m1, w) && Asked(m1, w) == Asked(m, w)
  {
    if attempt.Found? {
      var workflow := Workflow(id, attempt.active);
      AddDisarmed(m, workflow, mode, false, attempt.outcome, w);
      AddQueuedDisarmed(Add(m, workflow, mode, false, attempt.outcome).0, Init, workflow, w);
    }
  }

  lemma FireDisarmed(m: Manager, t: TimerId, w: WorkflowId)
    requires Disarmed(m, w)
    ensures Disarmed(Fire(m, t), w) && Asked(Fire(m, t), w) == Asked(m, w)
  {
    assert !IsTimerOf(m, t, w);
    DisarmedSame(m, Fire(m, t), w);
  }

  lemma DisarmedStep(m: Manager, e: Event, w: WorkflowId)
    requires Disarmed(m, w) && !Activates(e, w)
    ensures Disarmed(Apply(m, e), w) && Asked(Apply(m, e), w) == Asked(m, w)
  {
    match e
    case EAdd(workflow, mode, shouldPublish, outcome) => AddDisarmed(m, workflow, mode, shouldPublish, outcome, w);
    case EFire(t) => FireDisarmed(m, t, w);
    case EDequeue(_, _) =>
    case EEnd(_, _) =>
    case ETriggerError(workflow, mode, message, closes) =>
      DisarmedSame(m, Register(Unload(m, workflow.id, closes), workflow.id, message), w);
      AddQueuedDisarmed(Register(Unload(m, workflow.id, closes), workflow.id, message), mode, workflow, w);
    case ERemove(id, closes) => DisarmedSame(m, Remove(m, id, closes), w);
    case EHandleRemove(id, closes) => DisarmedSame(m, HandleRemove(m, id, closes), w);
    case EActivate(id, mode, attempt) => ActivateDisarmed(m, id, mode, attempt, w);
    case EClearErrors => DisarmedSame(m, ClearErrors(m), w);
  }

  lemma {:induction false} DisarmedRun(m: Manager, events: seq<Event>, w: WorkflowId)
    requires Disarmed(m, w) && LeftAlone(events, w)
    ensures Asked(Exec(m, events), w) == Asked(m, w)
    decreases |events|
  {
    if events != [] {
      assert !Activates(events[0], w);
      DisarmedStep(m, events[0], w);
      assert forall k :: 0 <= k < |events[1..]| ==> events[1..][k] == events[k + 1];
      DisarmedRun(Apply(m, events[0]), events[1..], w);
    }
  }

  /** In multi-main taking a workflow down clears no timer: no continuation asks for its
      activation unless it is activated anew, if and only if no timer of it was armed. */
  lemma TakeDownHoldsIff(m: Manager, w: WorkflowId, closes: bool)
    requires OnlyPublishes(m)
    ensures StaysUnasked(TakeDown(m, w, closes), w) <==> forall t :: !IsTimerOf(m, t, w)
  {
    var m1 := TakeDown(m, w, closes);
    forall t { TakeDownCancelsRetryIff(m, w, closes, t); }
    if t :| IsTimerOf(m, t, w) {
      Runs.ExecCons(Apply, m1, EFire(t), []);
      assert LeftAlone([EFire(t)], w);
      assert Asked(Exec(m1, [EFire(t)]), w) == Asked(m1, w) + 1;
    } else {
      forall events | LeftAlone(events, w) { DisarmedRun(m1, events, w); }
    }
  }

  /** The leader of a multi-main setup: a trigger fails, the workflow is deactivated, and
      the retry asks for its activation. */
  lemma ReactivationExample(w: Workflow, message: string)
    ensures Exec(Initial(true, true),
                 [ETriggerError(w, Activate, message, true), ERemove(w.id, true), EHandleRemove(w.id, true),
                  EFire(0)]).published
         == [RemoveCommand(w.id), AddCommand(w.id)]
  {
    var m0 := Initial(true, true);
    var e0, e1, e2, e3 := ETriggerError(w, Activate, message, true), ERemove(w.id, true), EHandleRemove(w.id, true),
      EFire(0);
    var m1 := Apply(m0, e0);
    assert m1.timers == map[0 := Timer(Activate, w, 1000)];
    Runs.ExecFour(Apply, m0, e0, e1, e2, e3);
  }
}
