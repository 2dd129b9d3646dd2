/** What every run of the activation manager keeps: one armed timer per queued
    workflow, an error for every retry, the backoff. */
module ActivationSafety {
  import opened Wrappers
  import Runs
  import opened WorkflowActivation

  /** A retry is three steps: it starts, it leaves the queue, it ends. Anything may come
      between them. */
  datatype Event =
    | EAdd(workflow: Workflow, mode: ActivateMode, shouldPublish: bool, outcome: Outcome)
    | EFire(t: TimerId)
    | EDequeue(t: TimerId, installed: bool)
    | EEnd(t: TimerId, end: End)
    | ETriggerError(workflow: Workflow, mode: ActivateMode, message: string, closes: bool)
    | ERemove(id: WorkflowId, closes: bool)
    | EHandleRemove(id: WorkflowId, closes: bool)
    | EActivate(id: WorkflowId, mode: ActivateMode, attempt: Attempt)
    | EClearErrors

  function Apply(m: Manager, e: Event): Manager {
    match e
    case EAdd(workflow, mode, shouldPublish, outcome) => Add(m, workflow, mode, shouldPublish, outcome).0
    case EFire(t) => Fire(m, t)
    case EDequeue(t, installed) => Dequeue(m, t, installed)
    case EEnd(t, end) => EndRetry(m, t, end)
    case ETriggerError(workflow, mode, message, closes) => TriggerError(m, workflow, mode, message, closes)
    case ERemove(id, closes) => Remove(m, id, closes)
    case EHandleRemove(id, closes) => HandleRemove(m, id, closes)
    case EActivate(id, mode, attempt) => ActivateWorkflow(m, id, mode, attempt)
    case EClearErrors => ClearErrors(m)
  }

  function Exec(m: Manager, events: seq<Event>): Manager {
    Runs.Exec(Apply, m, events)
  }

  function Initial(isMultiMain: bool, isLeader: bool): Manager {
    Manager(isMultiMain, isLeader, map[], map[], 0, map[], {}, map[], [])
  }

  // ---------------------------------------------------------------------------
  // Timers
  // ---------------------------------------------------------------------------

  /** Handles are given out once, and an entry's timer, while armed, is for that entry. */
  ghost predicate Handles(m: Manager) {
    && (forall t :: t in m.timers ==> t < m.nextTimer)
    && (forall t :: t in m.retrying ==> t < m.nextTimer && t !in m.timers)
    && (forall w :: w in m.queued ==>
          && m.queued[w].timer < m.nextTimer
          && (m.queued[w].timer in m.timers ==>
                && m.timers[m.queued[w].timer].workflow.id == w
                && m.timers[m.queued[w].timer].delay == m.queued[w].lastTimeout))
  }

  /** Every armed timer is the one recorded in the queue entry of its workflow. */
  ghost predicate AllRecorded(m: Manager) {
    forall t :: t in m.timers ==>
      m.timers[t].workflow.id in m.queued && m.queued[m.timers[t].workflow.id].timer == t
  }

  ghost predicate Recorded(m: Manager) {
    Handles(m) && AllRecorded(m)
  }

  lemma InitialHolds(isMultiMain: bool, isLeader: bool)
    ensures Recorded(Initial(isMultiMain, isLeader)) && Explained(Initial(isMultiMain, isLeader))
  {
  }

  /** So no workflow has two armed timers. */
  lemma OneTimer(m: Manager, t: TimerId, u: TimerId)
    requires Recorded(m) && t in m.timers && u in m.timers && m.timers[t].workflow.id == m.timers[u].workflow.id
    ensures t == u
  {
  }

  /** A retry of this workflow is armed. */
  predicate Armed(m: Manager, w: WorkflowId) {
    w in m.queued && m.queued[w].timer in m.timers
  }

  /** A retry that ends with an error while its workflow's timer is armed again: the new
      timer takes the place of that one in the entry, and nobody clears that one. */
  predicate Overwrites(m: Manager, e: Event) {
    e.EEnd? && CanEnd(m, e.t, e.end) && !e.end.Worked? && Armed(m, m.retrying[e.t].workflow.id)
  }

  /** Only the fields that timers do not depend on differ. */
  predicate SameTimers(m: Manager, m': Manager) {
    m'.timers == m.timers && m'.queued == m.queued && m'.nextTimer == m.nextTimer
  }

  lemma SameRecorded(m: Manager, m': Manager)
    requires Recorded(m) && SameTimers(m, m') && forall t :: t in m'.retrying ==> t in m.retrying
    ensures Recorded(m')
  {
  }

  lemma RemoveQueuedRecorded(m: Manager, id: WorkflowId)
    requires Recorded(m)
    ensures Recorded(RemoveQueued(m, id))
    ensures forall t :: t in RemoveQueued(m, id).timers ==> m.timers[t].workflow.id != id
  {
  }

  lemma AddQueuedRecorded(m: Manager, mode: ActivateMode, workflow: Workflow)
    requires Recorded(m)
    ensures Recorded(AddQueued(m, mode, workflow))
  {
    RemoveQueuedRecorded(m, workflow.id);
  }

  lemma PlaceKeepsTimers(m: Manager, asLeader: bool, id: WorkflowId, placement: Placement)
    ensures var m1 := Place(m, asLeader, id, placement);
            m1 == m.(memory := m1.memory)
  {
  }

  lemma BookRecorded(m: Manager, id: WorkflowId, outcome: Outcome)
    requires Recorded(m)
    ensures Recorded(Book(m, id, outcome))
  {
    RemoveQueuedRecorded(m, id);
  }

  lemma AddRecorded(m: Manager, workflow: Workflow, mode: ActivateMode, shouldPublish: bool, outcome: Outcome)
    requires Recorded(m)
    ensures Recorded(Add(m, workflow, mode, shouldPublish, outcome).0)
  {
    var m1 := Install(m, workflow.id, outcome);
    PlaceKeepsTimers(m, m.isLeader, workflow.id, PlacementOf(outcome));
    SameRecorded(m, m1);
    BookRecorded(m1, workflow.id, outcome);
  }

  lemma FireRecorded(m: Manager, t: TimerId)
    requires Recorded(m)
    ensures Recorded(Fire(m, t))
  {
    FireHandles(m, t);
    var m1 := Fire(m, t);
    assert m1.queued == m.queued && forall u :: u in m1.timers ==> u in m.timers && m1.timers[u] == m.timers[u];
  }

  lemma DequeueRecorded(m: Manager, t: TimerId, installed: bool)
    requires Recorded(m)
    ensures Recorded(Dequeue(m, t, installed))
  {
    if t in m.retrying && !m.retrying[t].dequeued {
      var id := m.retrying[t].workflow.id;
      var m1 := Place(m, m.retrying[t].asLeader, id, if installed then Placed else Untouched);
      PlaceKeepsTimers(m, m.retrying[t].asLeader, id, if installed then Placed else Untouched);
      SameRecorded(m, m1);
      RemoveQueuedRecorded(m1, id);
      SameRecorded(RemoveQueued(m1, id), Dequeue(m, t, installed));
    }
  }

  lemma RearmRecordedIff(m: Manager, mode: ActivateMode, workflow: Workflow)
    requires Recorded(m) && workflow.id in m.queued
    ensures Recorded(Rearm(m, mode, workflow)) <==> !Armed(m, workflow.id)
  {
    var m1 := Rearm(m, mode, workflow);
    if Armed(m, workflow.id) {
      assert m.queued[workflow.id].timer in m1.timers;
    } else {
      assert forall t :: t in m.timers ==> m.timers[t].workflow.id != workflow.id;
    }
  }

  /** What a failing end has made of the state before it queues again. */
  function Failed(m: Manager, t: TimerId, end: End): Manager
    requires t in m.retrying
  {
    var flight, m1 := m.retrying[t], m.(retrying := m.retrying - {t});
    match end
    case FailedBefore(placement, message) =>
      Register(Place(m1, flight.asLeader, flight.workflow.id, placement), flight.workflow.id, message)
    case FailedAfter(message) => Register(m1, flight.workflow.id, message)
    case _ => m1
  }

  lemma EndRecordedIff(m: Manager, t: TimerId, end: End)
    requires Recorded(m)
    ensures Recorded(EndRetry(m, t, end)) <==> !Overwrites(m, EEnd(t, end))
  {
    if CanEnd(m, t, end) {
      var flight, m1 := m.retrying[t], Failed(m, t, end);
      if end.FailedBefore? {
        PlaceKeepsTimers(m.(retrying := m.retrying - {t}), flight.asLeader, flight.workflow.id, end.placement);
      }
      SameRecorded(m, m1);
      if !end.Worked? && flight.workflow.id in m.queued {
        RearmRecordedIff(m1, flight.mode, flight.workflow);
      }
    }
  }

  lemma TriggerErrorRecorded(m: Manager, workflow: Workflow, mode: ActivateMode, message: string, closes: bool)
    requires Recorded(m)
    ensures Recorded(TriggerError(m, workflow, mode, message, closes))
  {
    var m1 := Register(Unload(m, workflow.id, closes), workflow.id, message);
    SameRecorded(m, m1);
    AddQueuedRecorded(m1, mode, workflow);
  }

  lemma RemoveRecorded(m: Manager, id: WorkflowId, closes: bool)
    requires Recorded(m)
    ensures Recorded(Remove(m, id, closes)) && Recorded(HandleRemove(m, id, closes))
  {
    SameRecorded(m, Deregister(m, id));
    RemoveQueuedRecorded(Deregister(m, id), id);
    SameRecorded(RemoveQueued(Deregister(m, id), id), Unload(RemoveQueued(Deregister(m, id), id), id, closes));
    SameRecorded(m, HandleRemove(m, id, closes));
  }

  lemma RecordedStepIff(m: Manager, e: Event)
    requires Recorded(m)
    ensures Recorded(Apply(m, e)) <==> !Overwrites(m, e)
  {
    match e
    case EAdd(workflow, mode, shouldPublish, outcome) => AddRecorded(m, workflow, mode, shouldPublish, outcome);
    case EFire(t) => FireRecorded(m, t);
    case EDequeue(t, installed) => DequeueRecorded(m, t, installed);
    case EEnd(t, end) => EndRecordedIff(m, t, end);
    case ETriggerError(workflow, mode, message, closes) => TriggerErrorRecorded(m, workflow, mode, message, closes);
    case ERemove(id, closes) => RemoveRecorded(m, id, closes);
    case EHandleRemove(id, closes) => RemoveRecorded(m, id, closes);
    case EActivate(id, mode, attempt) => ActivateRecorded(m, id, mode, attempt);
    case EClearErrors => SameRecorded(m, ClearErrors(m));
  }

  lemma ActivateRecorded(m: Manager, id: WorkflowId, mode: ActivateMode, attempt: Attempt)
    requires Recorded(m)
    ensures Recorded(ActivateWorkflow(m, id, mode, attempt))
  {
    if attempt.Found? {
      AddRecorded(m, Workflow(id, attempt.active), mode, false, attempt.outcome);
      AddQueuedRecorded(Add(m, Workflow(id, attempt.active), mode, false, attempt.outcome).0, Init,
                        Workflow(id, attempt.active));
    }
  }

  /** Over every run and interleaving an armed timer is the recorded one, and so the only
      one of its workflow, if and only if no retry ends with an error under a timer that
      was armed during it. */
  lemma RecordedRunIff(m: Manager, events: seq<Event>)
    requires Recorded(m)
    ensures Runs.Always(Apply, Recorded, m, events) <==> Runs.Never(Apply, Overwrites, m, events)
  {
    forall m: Manager, e: Event | Recorded(m)
      ensures Recorded(Apply(m, e)) <==> !Overwrites(m, e)
    {
      RecordedStepIff(m, e);
    }
    Runs.AlwaysIff(Apply, Recorded, Overwrites, m, events);
  }

  /** A trigger fails again while its retry is under way, and the retry fails too: two
      timers of one workflow are armed. */
  lemma TwoTimersExample(w: Workflow, message: string)
    requires w.active
    ensures var m := Exec(Initial(false, true),
                          [ETriggerError(w, Activate, message, true), EFire(0),
                           ETriggerError(w, Activate, message, true),
                           EEnd(0, FailedBefore(Untouched, message))]);
            && 1 in m.timers && 2 in m.timers && m.timers[1].workflow == m.timers[2].workflow == w
            && m.timers[1].mode == Activate && w.id in m.queued && m.queued[w.id].timer == 2
            && m.isLeader && !m.isMultiMain && !Recorded(m)
  {
    var m0 := Initial(false, true);
    var e0, e1, e3 := ETriggerError(w, Activate, message, true), EFire(0), EEnd(0, FailedBefore(Untouched, message));
    var m1 := Apply(m0, e0);
    var m2 := Apply(m1, e1);
    var m3 := Apply(m2, e0);
    var m4 := Apply(m3, e3);
    assert m2.retrying == map[0 := Flight(Activate, w, true, false)];
    assert 1 in m3.timers && m3.queued[w.id].timer == 1;
    Runs.ExecFour(Apply, m0, e0, e1, e0, e3);
  }

  // ---------------------------------------------------------------------------
  // What holds of the handles in every reachable state
  // ---------------------------------------------------------------------------

  lemma RemoveQueuedHandles(m: Manager, id: WorkflowId)
    requires Handles(m)
    ensures Handles(RemoveQueued(m, id))
  {
  }

  lemma SameHandles(m: Manager, m': Manager)
    requires Handles(m) && SameTimers(m, m') && m'.retrying.Keys == m.retrying.Keys
    ensures Handles(m')
  {
  }

  lemma FireHandles(m: Manager, t: TimerId)
    requires Handles(m)
    ensures Handles(Fire(m, t))
  {
  }

  lemma RemoveHandles(m: Manager, id: WorkflowId, closes: bool)
    requires Handles(m)
    ensures Handles(Remove(m, id, closes))
  {
    SameHandles(m, Deregister(m, id));
    RemoveQueuedHandles(Deregister(m, id), id);
    var m1 := RemoveQueued(Deregister(m, id), id);
    SameHandles(m1, Unload(m1, id, closes));
    SameHandles(m, m.(published := m.published + [RemoveCommand(id)]));
  }

  lemma AddQueuedHandles(m: Manager, mode: ActivateMode, workflow: Workflow)
    requires Handles(m)
    ensures Handles(AddQueued(m, mode, workflow))
  {
    RemoveQueuedHandles(m, workflow.id);
  }

  lemma RearmHandles(m: Manager, mode: ActivateMode, workflow: Workflow)
    requires Handles(m) && workflow.id in m.queued
    ensures Handles(Rearm(m, mode, workflow))
  {
  }

  lemma AddHandles(m: Manager, workflow: Workflow, mode: ActivateMode, shouldPublish: bool, outcome: Outcome)
    requires Handles(m)
    ensures Handles(Add(m, workflow, mode, shouldPublish, outcome).0)
  {
    PlaceKeepsTimers(m, m.isLeader, workflow.id, PlacementOf(outcome));
    RemoveQueuedHandles(Install(m, workflow.id, outcome), workflow.id);
  }

  lemma ActivateHandles(m: Manager, id: WorkflowId, mode: ActivateMode, attempt: Attempt)
    requires Handles(m)
    ensures Handles(ActivateWorkflow(m, id, mode, attempt))
  {
    if attempt.Found? {
      var workflow := Workflow(id, attempt.active);
      AddHandles(m, workflow, mode, false, attempt.outcome);
      AddQueuedHandles(Add(m, workflow, mode, false, attempt.outcome).0, Init, workflow);
    }
  }

  lemma DequeueHandles(m: Manager, t: TimerId, installed: bool)
    requires Handles(m)
    ensures Handles(Dequeue(m, t, installed))
  {
    if t in m.retrying && !m.retrying[t].dequeued {
      var id, placement := m.retrying[t].workflow.id, if installed then Placed else Untouched;
      var m1 := Place(m, m.retrying[t].asLeader, id, placement);
      PlaceKeepsTimers(m, m.retrying[t].asLeader, id, placement);
      SameHandles(m, m1);
      RemoveQueuedHandles(m1, id);
      SameHandles(RemoveQueued(m1, id), Dequeue(m, t, installed));
    }
  }

  lemma EndHandles(m: Manager, t: TimerId, end: End)
    requires Handles(m)
    ensures Handles(EndRetry(m, t, end))
  {
    if CanEnd(m, t, end) {
      var flight, m1 := m.retrying[t], Failed(m, t, end);
      if end.FailedBefore? {
        PlaceKeepsTimers(m.(retrying := m.retrying - {t}), flight.asLeader, flight.workflow.id, end.placement);
      }
      if !end.Worked? && flight.workflow.id in m.queued {
        RearmHandles(m1, flight.mode, flight.workflow);
      }
    }
  }

  /** A retry that overwrites keeps this too, so it holds in every reachable state. */
  lemma HandlesStep(m: Manager, e: Event)
    requires Handles(m)
    ensures Handles(Apply(m, e))
  {
    match e
    case EAdd(workflow, mode, shouldPublish, outcome) => AddHandles(m, workflow, mode, shouldPublish, outcome);
    case EFire(t) => FireHandles(m, t);
    case EDequeue(t, installed) => DequeueHandles(m, t, installed);
    case EEnd(t, end) => EndHandles(m, t, end);
    case ETriggerError(workflow, mode, message, closes) =>
      SameHandles(m, Register(Unload(m, workflow.id, closes), workflow.id, message));
      AddQueuedHandles(Register(Unload(m, workflow.id, closes), workflow.id, message), mode, workflow);
    case ERemove(id, closes) => RemoveHandles(m, id, closes);
    case EHandleRemove(id, closes) => SameHandles(m, HandleRemove(m, id, closes));
    case EActivate(id, mode, attempt) => ActivateHandles(m, id, mode, attempt);
    case EClearErrors => SameHandles(m, ClearErrors(m));
  }

  lemma {:induction false} HandlesRun(m: Manager, events: seq<Event>)
    requires Handles(m)
    ensures Handles(Exec(m, events))
    decreases |events|
  {
    if events != [] {
      HandlesStep(m, events[0]);
      HandlesRun(Apply(m, events[0]), events[1..]);
    }
  }

  // ---------------------------------------------------------------------------
  // A retry with nothing in between
  // ---------------------------------------------------------------------------

  function Retry(m: Manager, t: TimerId, outcome: Outcome): Manager {
    var m1 := Fire(m, t);
    match outcome
    case Succeeds(installed) => EndRetry(Dequeue(m1, t, installed), t, Worked)
    case FailsBefore(placement, message) => EndRetry(m1, t, FailedBefore(placement, message))
    case FailsAfter(installed, message) => EndRetry(Dequeue(m1, t, installed), t, FailedAfter(message))
    case FailsSave(installed, message) => EndRetry(Dequeue(m1, t, installed), t, FailedSave(message))
  }

  /** The dequeue does not depend on which retries are under way. */
  lemma DequeueAlone(m: Manager, retrying: map<TimerId, Flight>, asLeader: bool, id: WorkflowId, placement: Placement)
    ensures Deregister(RemoveQueued(Place(m.(retrying := retrying), asLeader, id, placement), id), id)
         == Deregister(RemoveQueued(Place(m, asLeader, id, placement), id), id).(retrying := retrying)
    ensures Deregister(RemoveQueued(Place(m, asLeader, id, placement), id), id).retrying == m.retrying
  {
    PlaceAlone(m, retrying, asLeader, id, placement);
    RemoveQueuedAlone(Place(m, asLeader, id, placement), retrying, id);
  }

  lemma PlaceAlone(m: Manager, retrying: map<TimerId, Flight>, asLeader: bool, id: WorkflowId, placement: Placement)
    ensures Place(m.(retrying := retrying), asLeader, id, placement)
         == Place(m, asLeader, id, placement).(retrying := retrying)
    ensures Place(m, asLeader, id, placement).retrying == m.retrying
  {
  }

  lemma RemoveQueuedAlone(m: Manager, retrying: map<TimerId, Flight>, id: WorkflowId)
    ensures RemoveQueued(m.(retrying := retrying), id) == RemoveQueued(m, id).(retrying := retrying)
    ensures RemoveQueued(m, id).retrying == m.retrying
  {
  }

  lemma RetryEndsAsAdd(m: Manager, t: TimerId, flight: Flight, outcome: Outcome)
    requires t !in m.retrying && flight.asLeader == m.isLeader && !flight.dequeued
    ensures var m1, id := m.(retrying := m.retrying[t := flight]), flight.workflow.id;
            var booked := Book(Install(m, id, outcome), id, outcome);
            match outcome
            case Succeeds(installed) => EndRetry(Dequeue(m1, t, installed), t, Worked) == booked
            case FailsBefore(placement, message) =>
              EndRetry(m1, t, FailedBefore(placement, message)) == Requeue(booked, flight)
            case FailsAfter(installed, message) =>
              EndRetry(Dequeue(m1, t, installed), t, FailedAfter(message)) == Requeue(booked, flight.(dequeued := true))
            case FailsSave(installed, message) =>
              EndRetry(Dequeue(m1, t, installed), t, FailedSave(message)) == Requeue(booked, flight.(dequeued := true))
  {
    var m1 := m.(retrying := m.retrying[t := flight]);
    assert m1.(retrying := m1.retrying - {t}) == m;
    if !outcome.FailsBefore? {
      var m2 := Dequeue(m1, t, outcome.installed);
      DequeueAlone(m, m1.retrying, m.isLeader, flight.workflow.id, PlacementOf(outcome));
      assert m2.retrying - {t} == m.retrying;
    }
  }

  /** Its three steps come to one call of `add`, and a new timer if that throws and the
      entry is still there. */
  lemma RetryIsAdd(m: Manager, t: TimerId, outcome: Outcome)
    requires Handles(m) && t in m.timers
    ensures var Timer(mode, workflow, _) := m.timers[t];
            var (m1, r) := Add(m.(timers := m.timers - {t}), workflow, mode, true, outcome);
            Retry(m, t, outcome) == if r.Threw? && workflow.id in m1.queued then Rearm(m1, mode, workflow) else m1
  {
    var Timer(mode, workflow, _) := m.timers[t];
    if !m.isMultiMain && !SkippedAsInactive(workflow, mode) {
      RetryEndsAsAdd(m.(timers := m.timers - {t}), t, Flight(mode, workflow, m.isLeader, false), outcome);
    }
  }

  /** A retry that fails finds the queue entry, and so goes on, exactly when it failed
      before `add` took the entry out. */
  lemma RetryContinuesIff(m: Manager, t: TimerId, outcome: Outcome)
    requires Recorded(m) && t in m.timers && !m.isMultiMain
    requires !SkippedAsInactive(m.timers[t].workflow, m.timers[t].mode)
    ensures var w := m.timers[t].workflow.id;
            var m' := Retry(m, t, outcome);
            && (Armed(m', w) <==> outcome.FailsBefore?)
            && (w in m'.queued <==> outcome.FailsBefore?)
            && (outcome.FailsBefore? ==>
                  && m'.queued[w].lastTimeout == NextTimeout(m.queued[w].lastTimeout)
                  && m'.timers[m'.queued[w].timer].delay == NextTimeout(m.queued[w].lastTimeout))
  {
    RetryIsAdd(m, t, outcome);
    var Timer(mode, workflow, _) := m.timers[t];
    AddLeavesQueue(m.(timers := m.timers - {t}), workflow, mode, outcome);
  }

  /** An `add` that gets to the dequeue takes its workflow out, and otherwise it leaves the
      queue and the timers alone. */
  lemma AddLeavesQueue(m: Manager, workflow: Workflow, mode: ActivateMode, outcome: Outcome)
    requires !m.isMultiMain && !SkippedAsInactive(workflow, mode)
    ensures var (m1, r) := Add(m, workflow, mode, true, outcome);
            && (!outcome.FailsBefore? ==> workflow.id !in m1.queued)
            && (outcome.FailsBefore? ==> SameTimers(m, m1) && r.Threw?)
  {
  }

  // ---------------------------------------------------------------------------
  // Activation errors
  // ---------------------------------------------------------------------------

  /** Every queued workflow has a recorded activation error. */
  ghost predicate Explained(m: Manager) {
    forall w :: w in m.queued ==> w in m.errors
  }

  /** The event leaves a queued workflow without an error: errors are cleared while
      something is queued, or a workflow is queued although only its final save failed. */
  predicate Unexplains(m: Manager, e: Event) {
    match e
    case EClearErrors => m.queued != map[]
    case EHandleRemove(id, _) => id in m.queued
    case EActivate(id, mode, attempt) =>
      && attempt.Found? && attempt.outcome.FailsSave?
      && !SkippedAsInactive(Workflow(id, attempt.active), mode)
      && !Contains(attempt.outcome.message, "Authorization")
    case _ => false
  }

  lemma PlaceExplained(m: Manager, asLeader: bool, id: WorkflowId, placement: Placement)
    requires Explained(m)
    ensures Explained(Place(m, asLeader, id, placement))
  {
    PlaceKeepsTimers(m, asLeader, id, placement);
  }

  lemma BookExplained(m: Manager, id: WorkflowId, outcome: Outcome)
    requires Explained(m)
    ensures Explained(Book(m, id, outcome))
    ensures !outcome.Succeeds? ==> (id in Book(m, id, outcome).errors <==> !outcome.FailsSave?)
  {
  }

  lemma AddExplained(m: Manager, workflow: Workflow, mode: ActivateMode, shouldPublish: bool, outcome: Outcome)
    requires Explained(m)
    ensures var (m1, r) := Add(m, workflow, mode, shouldPublish, outcome);
            && Explained(m1)
            && (r.Threw? ==> (workflow.id in m1.errors <==> !outcome.FailsSave?))
            && (r.Threw? ==> !SkippedAsInactive(workflow, mode))
  {
    PlaceExplained(m, m.isLeader, workflow.id, PlacementOf(outcome));
    BookExplained(Install(m, workflow.id, outcome), workflow.id, outcome);
  }

  lemma AddQueuedExplainedIff(m: Manager, mode: ActivateMode, workflow: Workflow)
    requires Explained(m)
    ensures Explained(AddQueued(m, mode, workflow)) <==> workflow.id in m.errors
  {
    assert workflow.id in AddQueued(m, mode, workflow).queued;
  }

  lemma ActivateExplained(m: Manager, id: WorkflowId, mode: ActivateMode, attempt: Attempt)
    requires Explained(m)
    ensures Explained(ActivateWorkflow(m, id, mode, attempt)) <==> !Unexplains(m, EActivate(id, mode, attempt))
  {
    if attempt.Found? {
      var workflow := Workflow(id, attempt.active);
      AddExplained(m, workflow, mode, false, attempt.outcome);
      AddQueuedExplainedIff(Add(m, workflow, mode, false, attempt.outcome).0, Init, workflow);
    }
  }

  lemma DequeueExplained(m: Manager, t: TimerId, installed: bool)
    requires Explained(m)
    ensures Explained(Dequeue(m, t, installed))
  {
    if t in m.retrying {
      PlaceExplained(m, m.retrying[t].asLeader, m.retrying[t].workflow.id, if installed then Placed else Untouched);
    }
  }

  lemma EndExplained(m: Manager, t: TimerId, end: End)
    requires Explained(m)
    ensures Explained(EndRetry(m, t, end))
  {
    if CanEnd(m, t, end) && end.FailedBefore? {
      PlaceExplained(m.(retrying := m.retrying - {t}), m.retrying[t].asLeader, m.retrying[t].workflow.id,
                     end.placement);
    }
  }

  lemma ExplainedStepIff(m: Manager, e: Event)
    requires Explained(m)
    ensures Explained(Apply(m, e)) <==> !Unexplains(m, e)
  {
    match e
    case EAdd(workflow, mode, shouldPublish, outcome) => AddExplained(m, workflow, mode, shouldPublish, outcome);
    case EFire(_) =>
    case EDequeue(t, installed) => DequeueExplained(m, t, installed);
    case EEnd(t, end) => EndExplained(m, t, end);
    case EActivate(id, mode, attempt) => ActivateExplained(m, id, mode, attempt);
    case EClearErrors =>
      if m.queued != map[] {
        var w :| w in m.queued;
        assert w in ClearErrors(m).queued;
      }
    case _ =>
  }

  /** Over whole runs: a workflow in the retry queue always has a recorded error if and
      only if errors are never cleared, or skipped by a failing save, under it. */
  lemma ExplainedRunIff(m: Manager, events: seq<Event>)
    requires Explained(m)
    ensures Runs.Always(Apply, Explained, m, events) <==> Runs.Never(Apply, Unexplains, m, events)
  {
    forall m: Manager, e: Event | Explained(m)
      ensures Explained(Apply(m, e)) <==> !Unexplains(m, e)
    {
      ExplainedStepIff(m, e);
    }
    Runs.AlwaysIff(Apply, Explained, Unexplains, m, events);
  }

  /** A batch activation whose final save fails: queued, and no error recorded. */
  lemma UnexplainedExample(w: WorkflowId, installed: bool)
    ensures var m := Exec(Initial(false, true), [EActivate(w, Init, Found(true, FailsSave(installed, "disk")))]);
            w in m.queued && w !in m.errors
  {
    var e := EActivate(w, Init, Found(true, FailsSave(installed, "disk")));
    Runs.ExecCons(Apply, Initial(false, true), e, []);
    assert !Contains("disk", "Authorization") by { ShorterContainsNot("disk", "Authorization"); }
  }

  lemma {:induction false} ShorterContainsNot(s: string, part: string)
    requires |s| < |part|
    ensures !Contains(s, part)
    decreases |s|
  {
    if s != [] {
      ShorterContainsNot(s[1..], part);
    }
  }

  // ---------------------------------------------------------------------------
  // Backoff
  // ---------------------------------------------------------------------------

  function Pow2(k: nat): nat {
    if k == 0 then 1 else 2 * Pow2(k - 1)
  }

  /** The delay after `k` consecutive failures. */
  function Backoff(k: nat): int {
    if 1000 * Pow2(k) <= 86400000 then 1000 * Pow2(k) else 86400000
  }

  lemma {:induction false} BackoffMonotone(j: nat, k: nat)
    requires j <= k
    ensures Backoff(j) <= Backoff(k) <= 86400000
    decreases k - j
  {
    if j < k {
      BackoffMonotone(j, k - 1);
    }
  }

  /** One day is reached with the 17th failure. */
  lemma BackoffConstantIff(k: nat)
    ensures Backoff(k) == 86400000 <==> k >= 17
  {
    assert Pow2(4) == 16 && Pow2(8) == 256 && Pow2(12) == 4096 && Pow2(16) == 65536 && Pow2(17) == 131072;
    if k >= 17 {
      BackoffMonotone(17, k);
    } else {
      BackoffMonotone(k, 16);
    }
  }

  lemma NextBackoff(k: nat)
    ensures NextTimeout(Backoff(k)) == Backoff(k + 1)
  {
  }

  /** A retry of `w` ends with an error. */
  predicate FailedRetry(m: Manager, e: Event, w: WorkflowId) {
    e.EEnd? && CanEnd(m, e.t, e.end) && m.retrying[e.t].workflow.id == w && !e.end.Worked?
  }

  /** The event is about other workflows, or starts a retry, or ends one that worked. */
  predicate Unrelated(m: Manager, e: Event, w: WorkflowId) {
    match e
    case EAdd(workflow, _, _, _) => workflow.id != w
    case EFire(_) => true
    case EDequeue(t, _) => t !in m.retrying || m.retrying[t].workflow.id != w
    case EEnd(_, _) => !FailedRetry(m, e, w)
    case ETriggerError(workflow, _, _, _) => workflow.id != w
    case ERemove(id, _) => id != w
    case EHandleRemove(id, _) => id != w
    case EActivate(id, _, _) => id != w
    case EClearErrors => true
  }

  /** `w` waits for a retry, or is in one, after `k` failures. */
  predicate Retrying(m: Manager, w: WorkflowId, k: nat) {
    w in m.queued && m.queued[w].lastTimeout == Backoff(k)
  }

  lemma AddQueuedKeepsEntry(m: Manager, mode: ActivateMode, workflow: Workflow, w: WorkflowId)
    requires workflow.id != w
    ensures Lookup(AddQueued(m, mode, workflow).queued, w) == Lookup(m.queued, w)
  {
  }

  lemma AddKeepsEntry(m: Manager, workflow: Workflow, mode: ActivateMode, shouldPublish: bool, outcome: Outcome,
                      w: WorkflowId)
    requires workflow.id != w
    ensures Lookup(Add(m, workflow, mode, shouldPublish, outcome).0.queued, w) == Lookup(m.queued, w)
  {
    PlaceKeepsTimers(m, m.isLeader, workflow.id, PlacementOf(outcome));
  }

  lemma DequeueKeepsEntry(m: Manager, t: TimerId, installed: bool, w: WorkflowId)
    requires t in m.retrying ==> m.retrying[t].workflow.id != w
    ensures Lookup(Dequeue(m, t, installed).queued, w) == Lookup(m.queued, w)
  {
    if t in m.retrying {
      PlaceKeepsTimers(m, m.retrying[t].asLeader, m.retrying[t].workflow.id, if installed then Placed else Untouched);
    }
  }

  lemma EndKeepsEntry(m: Manager, t: TimerId, end: End, w: WorkflowId)
    requires !FailedRetry(m, EEnd(t, end), w)
    ensures Lookup(EndRetry(m, t, end).queued, w) == Lookup(m.queued, w)
  {
    if CanEnd(m, t, end) && end.FailedBefore? {
      PlaceKeepsTimers(m.(retrying := m.retrying - {t}), m.retrying[t].asLeader, m.retrying[t].workflow.id,
                       end.placement);
    }
  }

  lemma ActivateKeepsEntry(m: Manager, id: WorkflowId, mode: ActivateMode, attempt: Attempt, w: WorkflowId)
    requires id != w
    ensures Lookup(ActivateWorkflow(m, id, mode, attempt).queued, w) == Lookup(m.queued, w)
  {
    if attempt.Found? {
      var workflow := Workflow(id, attempt.active);
      AddKeepsEntry(m, workflow, mode, false, attempt.outcome, w);
      AddQueuedKeepsEntry(Add(m, workflow, mode, false, attempt.outcome).0, Init, workflow, w);
    }
  }

  lemma UnrelatedKeepsEntry(m: Manager, e: Event, w: WorkflowId)
    requires Unrelated(m, e, w)
    ensures Lookup(Apply(m, e).queued, w) == Lookup(m.queued, w)
  {
    match e
    case EAdd(workflow, mode, shouldPublish, outcome) => AddKeepsEntry(m, workflow, mode, shouldPublish, outcome, w);
    case EFire(_) =>
    case EDequeue(t, installed) => DequeueKeepsEntry(m, t, installed, w);
    case EEnd(t, end) => EndKeepsEntry(m, t, end, w);
    case ETriggerError(workflow, mode, message, closes) =>
      AddQueuedKeepsEntry(Register(Unload(m, workflow.id, closes), workflow.id, message), mode, workflow, w);
    case ERemove(_, _) =>
    case EHandleRemove(_, _) =>
    case EActivate(id, mode, attempt) => ActivateKeepsEntry(m, id, mode, attempt, w);
    case EClearErrors =>
  }

  /** A failed retry doubles the delay up to the cap, and arms its timer with it. */
  lemma FailedRetryDoubles(m: Manager, e: Event, w: WorkflowId, j: nat)
    requires Retrying(m, w, j) && FailedRetry(m, e, w)
    ensures Retrying(Apply(m, e), w, j + 1)
    ensures Armed(Apply(m, e), w) && Apply(m, e).timers[Apply(m, e).queued[w].timer].delay == Backoff(j + 1)
  {
    NextBackoff(j);
    if e.end.FailedBefore? {
      PlaceKeepsTimers(m.(retrying := m.retrying - {e.t}), m.retrying[e.t].asLeader, w, e.end.placement);
    }
  }

  lemma UnrelatedKeepsDelay(m: Manager, e: Event, w: WorkflowId, j: nat)
    requires Retrying(m, w, j) && Unrelated(m, e, w)
    ensures Retrying(Apply(m, e), w, j)
  {
    UnrelatedKeepsEntry(m, e, w);
  }

  /** How many of the events are failing ends of retries of `w`, the others being
      unrelated to its entry; `None` if the entry is touched otherwise. */
  ghost function Failures(m: Manager, events: seq<Event>, w: WorkflowId): Option<nat>
    decreases |events|
  {
    if events == [] then Some(0)
    else
      var rest := Failures(Apply(m, events[0]), events[1..], w);
      if rest.None? then None
      else if FailedRetry(m, events[0], w) then Some(rest.value + 1)
      else if Unrelated(m, events[0], w) then rest
      else None
  }

  lemma FailuresStep(m: Manager, events: seq<Event>, w: WorkflowId, k: nat)
    requires events != [] && Failures(m, events, w) == Some(k)
    ensures var rest := Failures(Apply(m, events[0]), events[1..], w);
            if FailedRetry(m, events[0], w) then k > 0 && rest == Some(k - 1)
            else Unrelated(m, events[0], w) && rest == Some(k)
  {
  }

  /** With anything going on for other workflows, `k` further failed retries raise the
      entry's delay to that of `j + k` failures. */
  lemma {:induction false} BackoffAfter(m: Manager, events: seq<Event>, w: WorkflowId, j: nat, k: nat)
    requires Retrying(m, w, j) && Failures(m, events, w) == Some(k)
    ensures Retrying(Exec(m, events), w, j + k)
    decreases |events|
  {
    if events != [] {
      var m1, rest := Apply(m, events[0]), events[1..];
      FailuresStep(m, events, w, k);
      if FailedRetry(m, events[0], w) {
        FailedRetryDoubles(m, events[0], w, j);
        BackoffAfter(m1, rest, w, j + 1, k - 1);
      } else {
        UnrelatedKeepsDelay(m, events[0], w, j);
        BackoffAfter(m1, rest, w, j, k);
      }
      assert Exec(m, events) == Exec(m1, rest);
    } else {
      assert k == 0;
    }
  }

  lemma BackoffStarts(m: Manager, mode: ActivateMode, workflow: Workflow)
    ensures var m' := AddQueued(m, mode, workflow);
            && Armed(m', workflow.id) && Retrying(m', workflow.id, 0)
            && m'.timers[m'.queued[workflow.id].timer].delay == Backoff(0)
  {
  }

  /** From the queueing of a workflow on, with anything going on for other workflows, the
      delay of its timer is exactly `min(1000 * 2^k, one day)` after `k` failed retries. */
  lemma BackoffExact(m: Manager, mode: ActivateMode, workflow: Workflow, events: seq<Event>, k: nat)
    requires Handles(m) && Failures(AddQueued(m, mode, workflow), events, workflow.id) == Some(k)
    ensures var w, m' := workflow.id, Exec(AddQueued(m, mode, workflow), events);
            && w in m'.queued && m'.queued[w].lastTimeout == Backoff(k)
            && (Armed(m', w) ==> m'.timers[m'.queued[w].timer].delay == Backoff(k))
  {
    BackoffStarts(m, mode, workflow);
    BackoffAfter(AddQueued(m, mode, workflow), events, workflow.id, 0, k);
    AddQueuedHandles(m, mode, workflow);
    HandlesRun(AddQueued(m, mode, workflow), events);
  }
}
