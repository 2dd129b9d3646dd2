/** Activation of workflows on one main instance: the retry queue with its timers and
    backoff, the registry of activation errors, and batch activation. */
module WorkflowActivation {
  import opened Wrappers

  type WorkflowId = string
  type TimerId = nat

  datatype ActivateMode = Init | LeadershipChange | Update | Activate

  const INITIAL_TIMEOUT := 1000
  const MAX_TIMEOUT := 24 * 60 * 60 * 1000

  /** The entity that an activation works on; `active` is its stored flag. */
  datatype Workflow = Workflow(id: WorkflowId, active: bool)

  /** `QueuedActivation` */
  datatype Queued = Queued(mode: ActivateMode, lastTimeout: int, timer: TimerId, workflow: Workflow)

  /** An armed `setTimeout`, with what its retry function closes over. */
  datatype Timer = Timer(mode: ActivateMode, workflow: Workflow, delay: int)

  /** A retry between its first and its last await: what it closes over, the role that
      `add` read at its start, and whether it has left the retry queue by now. */
  datatype Flight = Flight(mode: ActivateMode, workflow: Workflow, asLeader: bool, dequeued: bool)

  datatype Command = AddCommand(id: WorkflowId) | RemoveCommand(id: WorkflowId)

  /** `memory` are the workflows whose triggers and pollers run here; `retrying` are the
      retries under way, by the timer that started them. */
  datatype Manager = Manager(
    isMultiMain: bool, isLeader: bool,
    queued: map<WorkflowId, Queued>, timers: map<TimerId, Timer>, nextTimer: TimerId, retrying: map<TimerId, Flight>,
    memory: set<WorkflowId>, errors: map<WorkflowId, string>,
    published: seq<Command>)

  // ---------------------------------------------------------------------------
  // The retry queue
  // ---------------------------------------------------------------------------

  function SetTimeout(m: Manager, timer: Timer): Manager {
    m.(timers := m.timers[m.nextTimer := timer], nextTimer := m.nextTimer + 1)
  }

  function RemoveQueued(m: Manager, id: WorkflowId): Manager {
    if id in m.queued then m.(timers := m.timers - {m.queued[id].timer}, queued := m.queued - {id}) else m
  }

  function AddQueued(m: Manager, mode: ActivateMode, workflow: Workflow): Manager {
    var m1 := RemoveQueued(m, workflow.id);
    SetTimeout(m1.(queued := m1.queued[workflow.id := Queued(mode, INITIAL_TIMEOUT, m1.nextTimer, workflow)]),
               Timer(mode, workflow, INITIAL_TIMEOUT))
  }

  function NextTimeout(lastTimeout: int): int {
    if lastTimeout < MAX_TIMEOUT then (if lastTimeout * 2 <= MAX_TIMEOUT then lastTimeout * 2 else MAX_TIMEOUT)
    else lastTimeout
  }

  // ---------------------------------------------------------------------------
  // add
  // ---------------------------------------------------------------------------

  /** What `ActiveWorkflows.add` has made of the workflow's place in memory when it
      returns or throws: a failing trigger leaves it as it was, a failing poller drops
      it when no trigger responded. */
  datatype Placement = Untouched | Placed | Dropped

  /** How the parts of `add` that lie outside this model go. `installed` says that the
      workflow has triggers or pollers. */
  datatype Outcome =
    | Succeeds(installed: bool)
    /** Something before the removal from the queue fails. */
    | FailsBefore(placement: Placement, message: string)
    /** Counting triggers or storing the count fails. */
    | FailsAfter(installed: bool, message: string)
    /** The final save of static data fails, outside the `try`. */
    | FailsSave(installed: bool, message: string)

  datatype Result = Done | Threw(message: string)

  function PlacementOf(outcome: Outcome): Placement {
    if outcome.FailsBefore? then outcome.placement
    else if outcome.installed then Placed
    else Untouched
  }

  /** Only what began as leader touches the memory. */
  function Place(m: Manager, asLeader: bool, id: WorkflowId, placement: Placement): Manager {
    if !asLeader then m
    else
      match placement
      case Untouched => m
      case Placed => m.(memory := m.memory + {id})
      case Dropped => m.(memory := m.memory - {id})
  }

  function Install(m: Manager, id: WorkflowId, outcome: Outcome): Manager {
    Place(m, m.isLeader, id, PlacementOf(outcome))
  }

  function Register(m: Manager, id: WorkflowId, message: string): Manager {
    m.(errors := m.errors[id := message])
  }

  function Deregister(m: Manager, id: WorkflowId): Manager {
    m.(errors := m.errors - {id})
  }

  predicate SkippedAsInactive(workflow: Workflow, mode: ActivateMode) {
    (mode.Init? || mode.LeadershipChange?) && !workflow.active
  }

  function Add(m: Manager, workflow: Workflow, mode: ActivateMode, shouldPublish: bool, outcome: Outcome)
    : (Manager, Result)
  {
    var id := workflow.id;
    if m.isMultiMain && shouldPublish then (m.(published := m.published + [AddCommand(id)]), Done)
    else if SkippedAsInactive(workflow, mode) then (m, Done)
    else (Book(Install(m, id, outcome), id, outcome), if outcome.Succeeds? then Done else Threw(outcome.message))
  }

  /** What an activation leaves in the queue and in the error registry. */
  function Book(m: Manager, id: WorkflowId, outcome: Outcome): Manager {
    match outcome
    case FailsBefore(_, message) => Register(m, id, message)
    case FailsAfter(_, message) => Register(Deregister(RemoveQueued(m, id), id), id, message)
    case FailsSave(_, _) => Deregister(RemoveQueued(m, id), id)
    case Succeeds(_) => Deregister(RemoveQueued(m, id), id)
  }

  // ---------------------------------------------------------------------------
  // Retries, trigger errors, removal
  // ---------------------------------------------------------------------------

  /** The retry function of timer `t` up to its first await. */
  function Fire(m: Manager, t: TimerId): Manager {
    if t !in m.timers then m
    else
      var Timer(mode, workflow, _) := m.timers[t];
      var m1 := m.(timers := m.timers - {t});
      if m.isMultiMain then m1.(published := m.published + [AddCommand(workflow.id)])
      else if SkippedAsInactive(workflow, mode) then m1
      else m1.(retrying := m.retrying[t := Flight(mode, workflow, m.isLeader, false)])
  }

  /** The activation has worked so far, and the workflow leaves the retry queue. */
  function Dequeue(m: Manager, t: TimerId, installed: bool): Manager {
    if t !in m.retrying || m.retrying[t].dequeued then m
    else
      var flight := m.retrying[t];
      var id := flight.workflow.id;
      var m1 := Place(m, flight.asLeader, id, if installed then Placed else Untouched);
      Deregister(RemoveQueued(m1, id), id).(retrying := m.retrying[t := flight.(dequeued := true)])
  }

  /** How the `add` of a retry ends: it fails before the dequeue, or after it in or
      outside the `try`, or works. */
  datatype End =
    | Worked
    | FailedBefore(placement: Placement, message: string)
    | FailedAfter(message: string)
    | FailedSave(message: string)

  predicate CanEnd(m: Manager, t: TimerId, end: End) {
    t in m.retrying && (end.FailedBefore? <==> !m.retrying[t].dequeued)
  }

  function EndRetry(m: Manager, t: TimerId, end: End): Manager {
    if !CanEnd(m, t, end) then m
    else
      var flight, m1 := m.retrying[t], m.(retrying := m.retrying - {t});
      var id := flight.workflow.id;
      match end
      case Worked => m1
      case FailedBefore(placement, message) =>
        Requeue(Register(Place(m1, flight.asLeader, id, placement), id, message), flight)
      case FailedAfter(message) => Requeue(Register(m1, id, message), flight)
      case FailedSave(_) => Requeue(m1, flight)
  }

  /** Without an entry for the workflow the access to `lastTimeout` throws, and nothing
      more happens. */
  function Requeue(m: Manager, flight: Flight): Manager {
    if flight.workflow.id in m.queued then Rearm(m, flight.mode, flight.workflow) else m
  }

  /** The failure branch of the retry function. */
  function Rearm(m: Manager, mode: ActivateMode, workflow: Workflow): Manager
    requires workflow.id in m.queued
  {
    var entry := m.queued[workflow.id];
    var lastTimeout := NextTimeout(entry.lastTimeout);
    SetTimeout(m.(queued := m.queued[workflow.id := entry.(lastTimeout := lastTimeout, timer := m.nextTimer)]),
               Timer(mode, workflow, lastTimeout))
  }

  /** Taking triggers and pollers out of memory, which keeps them there when one of
      the workflow's close functions fails. */
  function Unload(m: Manager, id: WorkflowId, closes: bool): Manager {
    if closes then m.(memory := m.memory - {id}) else m
  }

  /** `emitError` of a running trigger, which ignores a failure to close. */
  function TriggerError(m: Manager, workflow: Workflow, mode: ActivateMode, message: string, closes: bool): Manager {
    AddQueued(Register(Unload(m, workflow.id, closes), workflow.id, message), mode, workflow)
  }

  /** `remove`, whose clearing of webhooks may fail unnoticed. */
  function Remove(m: Manager, id: WorkflowId, closes: bool): Manager {
    if m.isMultiMain then m.(published := m.published + [RemoveCommand(id)])
    else Unload(RemoveQueued(Deregister(m, id), id), id, closes)
  }

  /** The leader's handler for `remove-triggers-and-pollers`. */
  function HandleRemove(m: Manager, id: WorkflowId, closes: bool): Manager {
    Unload(Deregister(m, id), id, closes)
  }

  /** What is left in memory when all is removed in the given order: the first failing
      close function ends the loop. */
  function RemoveAll(memory: set<WorkflowId>, order: seq<WorkflowId>, failing: set<WorkflowId>): set<WorkflowId>
    decreases |order|
  {
    if order == [] || (order[0] in memory && order[0] in failing) then memory
    else RemoveAll(memory - {order[0]}, order[1..], failing)
  }

  function ClearErrors(m: Manager): Manager {
    m.(errors := map[])
  }

  // ---------------------------------------------------------------------------
  // Batch activation
  // ---------------------------------------------------------------------------

  /** What `activateWorkflow` meets for one stored id: the row it reads, if the read
      works and finds one, and the outcome of `add`. */
  datatype Attempt = Missing | ReadFails | Found(active: bool, outcome: Outcome)

  type World = WorkflowId -> Attempt

  function ActivateWorkflow(m: Manager, id: WorkflowId, mode: ActivateMode, attempt: Attempt): Manager {
    if !attempt.Found? then m
    else
      var (m1, r) := Add(m, Workflow(id, attempt.active), mode, false, attempt.outcome);
      if r.Done? || Contains(r.message, "Authorization") then m1
      else AddQueued(m1, Init, Workflow(id, attempt.active))
  }

  function ActivateAll(m: Manager, ids: seq<WorkflowId>, mode: ActivateMode, world: World): Manager
    decreases |ids|
  {
    if ids == [] then m
    else ActivateAll(ActivateWorkflow(m, ids[0], mode, world(ids[0])), ids[1..], mode, world)
  }

  /** lodash `chunk`, which yields nothing for a size below one. */
  function Chunk<T>(s: seq<T>, size: int): seq<seq<T>>
    decreases |s|
  {
    if size < 1 || s == [] then []
    else if |s| <= size then [s]
    else [s[..size]] + Chunk(s[size..], size)
  }

  function Flatten<T>(batches: seq<seq<T>>): seq<T> {
    if batches == [] then [] else batches[0] + Flatten(batches[1..])
  }

  lemma {:induction false} FlattenChunk<T>(s: seq<T>, size: int)
    ensures Flatten(Chunk(s, size)) == if size < 1 then [] else s
    decreases |s|
  {
    if size >= 1 && s != [] {
      if |s| <= size {
        assert [s][1..] == [];
      } else {
        FlattenChunk(s[size..], size);
        assert Chunk(s, size)[1..] == Chunk(s[size..], size);
      }
    }
  }

  class ActiveWorkflowManager {
    const isMultiMain: bool
    var isLeader: bool
    var queuedActivations: map<WorkflowId, Queued>
    var timers: map<TimerId, Timer>
    var nextTimer: TimerId
    var retrying: map<TimerId, Flight>
    var memory: set<WorkflowId>
    var errors: map<WorkflowId, string>
    var published: seq<Command>
    var isActivationInProgress: bool

    function View(): Manager
      reads this
    {
      Manager(isMultiMain, isLeader, queuedActivations, timers, nextTimer, retrying, memory, errors, published)
    }

    constructor (isMultiMain: bool, isLeader: bool)
      ensures View() == Manager(isMultiMain, isLeader, map[], map[], 0, map[], {}, map[], [])
      ensures !isActivationInProgress
    {
      this.isMultiMain, this.isLeader := isMultiMain, isLeader;
      queuedActivations, timers, nextTimer, retrying := map[], map[], 0, map[];
      memory, errors, published := {}, map[], [];
      isActivationInProgress := false;
    }

    method RemoveQueuedWorkflowActivation(id: WorkflowId)
      modifies this`queuedActivations, this`timers
      ensures View() == RemoveQueued(old(View()), id)
    {
      if id in queuedActivations {
        timers := timers - {queuedActivations[id].timer};
        queuedActivations := queuedActivations - {id};
      }
    }

    /** Arms a timer and returns its handle. */
    method ArmTimer(timer: Timer) returns (handle: TimerId)
      modifies this`timers, this`nextTimer
      ensures handle == old(nextTimer) && View() == SetTimeout(old(View()), timer)
    {
      handle := nextTimer;
      timers := timers[handle := timer];
      nextTimer := nextTimer + 1;
    }

    method AddQueuedWorkflowActivation(mode: ActivateMode, workflow: Workflow)
      modifies this`queuedActivations, this`timers, this`nextTimer
      ensures View() == AddQueued(old(View()), mode, workflow)
    {
      RemoveQueuedWorkflowActivation(workflow.id);
      var handle := ArmTimer(Timer(mode, workflow, INITIAL_TIMEOUT));
      queuedActivations := queuedActivations[workflow.id := Queued(mode, INITIAL_TIMEOUT, handle, workflow)];
    }

    method AddWorkflow(workflow: Workflow, mode: ActivateMode, shouldPublish: bool, outcome: Outcome)
      returns (r: Result)
      modifies `queuedActivations, `timers, `nextTimer, `memory, `errors, `published
      ensures (View(), r) == Add(old(View()), workflow, mode, shouldPublish, outcome)
    {
      if isMultiMain && shouldPublish {
        published := published + [AddCommand(workflow.id)];
        return Done;
      }
      var shouldAddTriggersAndPollers := isLeader;
      if (mode == Init || mode == LeadershipChange) && !workflow.active {
        return Done;
      }
      PlaceInMemory(shouldAddTriggersAndPollers, workflow.id, PlacementOf(outcome));
      r := BookActivation(workflow.id, outcome);
    }

    /** The rest of `add`: the retry queue, the error registry, and what it throws. */
    method BookActivation(id: WorkflowId, outcome: Outcome) returns (r: Result)
      modifies `queuedActivations, `timers, `errors
      ensures View() == Book(old(View()), id, outcome)
      ensures r == if outcome.Succeeds? then Done else Threw(outcome.message)
    {
      if outcome.FailsBefore? {
        errors := errors[id := outcome.message];
        return Threw(outcome.message);
      }
      RemoveQueuedWorkflowActivation(id);
      errors := errors - {id};
      if outcome.FailsAfter? {
        errors := errors[id := outcome.message];
        return Threw(outcome.message);
      }
      return if outcome.FailsSave? then Threw(outcome.message) else Done;
    }

    /** `addTriggersAndPollers`, if the role read at the start allows it. */
    method PlaceInMemory(shouldAddTriggersAndPollers: bool, id: WorkflowId, placement: Placement)
      modifies `memory
      ensures View() == Place(old(View()), shouldAddTriggersAndPollers, id, placement)
    {
      if shouldAddTriggersAndPollers {
        match placement {
          case Untouched =>
          case Placed => memory := memory + {id};
          case Dropped => memory := memory - {id};
        }
      }
    }

    /** The runtime fires an armed retry timer. */
    method RetryFires(t: TimerId)
      requires t in timers
      modifies `timers, `retrying, `published
      ensures View() == Fire(old(View()), t)
    {
      var Timer(mode, workflow, _) := timers[t];
      timers := timers - {t};
      if isMultiMain {
        published := published + [AddCommand(workflow.id)];
        return;
      }
      var shouldAddTriggersAndPollers := isLeader;
      if (mode == Init || mode == LeadershipChange) && !workflow.active {
        return;
      }
      retrying := retrying[t := Flight(mode, workflow, shouldAddTriggersAndPollers, false)];
    }

    /** The retry goes on with an activation that has worked so far. */
    method RetryDequeues(t: TimerId, installed: bool)
      requires t in retrying && !retrying[t].dequeued
      modifies `queuedActivations, `timers, `retrying, `memory, `errors
      ensures View() == Dequeue(old(View()), t, installed)
    {
      var flight := retrying[t];
      PlaceInMemory(flight.asLeader, flight.workflow.id, if installed then Placed else Untouched);
      RemoveQueuedWorkflowActivation(flight.workflow.id);
      errors := errors - {flight.workflow.id};
      retrying := retrying[t := flight.(dequeued := true)];
    }

    /** The retry comes to its end, with or without an error. */
    method RetryEnds(t: TimerId, end: End)
      requires CanEnd(View(), t, end)
      modifies `queuedActivations, `timers, `nextTimer, `retrying, `memory, `errors
      ensures View() == EndRetry(old(View()), t, end)
    {
      var flight := retrying[t];
      var id := flight.workflow.id;
      retrying := retrying - {t};
      if end.Worked? {
        return;
      }
      if end.FailedBefore? {
        PlaceInMemory(flight.asLeader, id, end.placement);
      }
      if !end.FailedSave? {
        errors := errors[id := end.message];
      }
      if id in queuedActivations {
        RearmRetry(flight.mode, flight.workflow);
      }
    }

    method RearmRetry(mode: ActivateMode, workflow: Workflow)
      requires workflow.id in queuedActivations
      modifies `queuedActivations, `timers, `nextTimer
      ensures View() == Rearm(old(View()), mode, workflow)
    {
      var lastTimeout := queuedActivations[workflow.id].lastTimeout;
      if lastTimeout < MAX_TIMEOUT {
        lastTimeout := if lastTimeout * 2 <= MAX_TIMEOUT then lastTimeout * 2 else MAX_TIMEOUT;
      }
      var queued := queuedActivations[workflow.id].(lastTimeout := lastTimeout);
      queuedActivations := queuedActivations[workflow.id := queued];
      var handle := ArmTimer(Timer(mode, workflow, lastTimeout));
      queuedActivations := queuedActivations[workflow.id := queuedActivations[workflow.id].(timer := handle)];
    }

    /** `ActiveWorkflows.remove`; `closes` says whether the close functions succeed. */
    method RemoveFromMemory(id: WorkflowId, closes: bool) returns (r: Result)
      modifies this`memory
      ensures View() == Unload(old(View()), id, closes)
      ensures r.Threw? <==> id in old(memory) && !closes
    {
      if id !in memory {
        return Done;
      }
      if !closes {
        return Threw("close");
      }
      memory := memory - {id};
      return Done;
    }

    method RemoveAllTriggerAndPollerBasedWorkflows(order: seq<WorkflowId>, failing: set<WorkflowId>) returns (r: Result)
      requires forall w :: w in order <==> w in memory
      requires forall i, j :: 0 <= i < j < |order| ==> order[i] != order[j]
      modifies this`memory
      ensures View() == old(View()).(memory := RemoveAll(old(memory), order, failing))
      ensures r.Done? <==> old(memory) !! failing
      ensures r.Done? <==> old(memory) == {} || memory == {}
    {
      r := Done;
      var j := 0;
      while j < |order|
        invariant 0 <= j <= |order|
        invariant View() == old(View()).(memory := memory)
        invariant RemoveAll(memory, order[j..], failing) == RemoveAll(old(memory), order, failing)
        invariant memory <= old(memory)
        invariant r.Done?
        invariant forall w :: w in memory <==> w in order[j..]
        invariant forall w :: w in order[..j] ==> w !in failing
      {
        assert order[j..][0] == order[j] && order[j..][1..] == order[j + 1..];
        assert order[..j + 1] == order[..j] + [order[j]];
        r := RemoveFromMemory(order[j], order[j] !in failing);
        if r.Threw? {
          return;
        }
        j := j + 1;
      }
      assert order[..j] == order;
    }

    method EmitError(workflow: Workflow, mode: ActivateMode, message: string, closes: bool)
      modifies `queuedActivations, `timers, `nextTimer, `memory, `errors, `published
      ensures View() == TriggerError(old(View()), workflow, mode, message, closes)
    {
      var _ := RemoveFromMemory(workflow.id, closes);
      errors := errors[workflow.id := message];
      AddQueuedWorkflowActivation(mode, workflow);
    }

    method RemoveWorkflow(id: WorkflowId, closes: bool) returns (r: Result)
      modifies `queuedActivations, `timers, `nextTimer, `memory, `errors, `published
      ensures View() == Remove(old(View()), id, closes)
      ensures r.Threw? <==> !isMultiMain && id in old(memory) && !closes
    {
      if isMultiMain {
        published := published + [RemoveCommand(id)];
        return Done;
      }
      errors := errors - {id};
      if id in queuedActivations {
        RemoveQueuedWorkflowActivation(id);
      }
      r := RemoveFromMemory(id, closes);
    }

    method ActivateStoredWorkflow(id: WorkflowId, mode: ActivateMode, attempt: Attempt)
      modifies `queuedActivations, `timers, `nextTimer, `memory, `errors, `published
      ensures View() == ActivateWorkflow(old(View()), id, mode, attempt)
    {
      if !attempt.Found? {
        return;
      }
      var workflow := Workflow(id, attempt.active);
      var r := AddWorkflow(workflow, mode, false, attempt.outcome);
      if r.Threw? {
        if Contains(r.message, "Authorization") {
          return;
        }
        AddQueuedWorkflowActivation(Init, workflow);
      }
    }

    /** `addActiveWorkflows`. `stored` are the ids in the database, `None` if reading
        them fails; within a batch the activations take effect in the order of `ids`.
        A failing read of a workflow lets its batch finish and no further one start. */
    method AddActiveWorkflows(mode: ActivateMode, stored: Option<seq<WorkflowId>>, batchSize: int, world: World)
      returns (r: Result, ghost attempted: seq<WorkflowId>)
      modifies this
      // the guard against re-entry
      ensures old(isActivationInProgress) ==> attempted == [] && isActivationInProgress
      ensures !old(isActivationInProgress) ==> !isActivationInProgress
      ensures View() == ActivateAll(old(View()), attempted, mode, world)
      ensures !old(isActivationInProgress) && stored.Some? ==>
                var all := Flatten(Chunk(stored.value, batchSize));
                && attempted <= all
                && (r.Done? ==> attempted == all)
                && (r.Threw? <==> AnyReadFails(attempted, world))
      ensures !old(isActivationInProgress) && stored.None? ==> r.Threw? && attempted == []
    {
      attempted := [];
      if isActivationInProgress {
        return Done, [];
      }
      isActivationInProgress := true;
      if stored.None? {
        isActivationInProgress := false;
        return Threw("read"), [];
      }
      ghost var start := View();
      var batches := Chunk(stored.value, batchSize);
      r := Done;
      var b := 0;
      while b < |batches| && r.Done?
        invariant 0 <= b <= |batches|
        invariant attempted + Flatten(batches[b..]) == Flatten(batches)
        invariant View() == ActivateAll(start, attempted, mode, world)
        invariant r.Threw? <==> AnyReadFails(attempted, world)
      {
        assert batches[b..][0] == batches[b] && batches[b..][1..] == batches[b + 1..];
        r := ActivateBatch(batches[b], mode, world);
        ActivateAllConcat(start, attempted, batches[b], mode, world);
        ReadFailsConcat(attempted, batches[b], world);
        attempted := attempted + batches[b];
        b := b + 1;
      }
      isActivationInProgress := false;
    }

    method ActivateBatch(batch: seq<WorkflowId>, mode: ActivateMode, world: World) returns (r: Result)
      modifies `queuedActivations, `timers, `nextTimer, `memory, `errors, `published
      ensures View() == ActivateAll(old(View()), batch, mode, world)
      ensures r.Threw? <==> AnyReadFails(batch, world)
    {
      r := Done;
      var j := 0;
      while j < |batch|
        invariant 0 <= j <= |batch|
        invariant View() == ActivateAll(old(View()), batch[..j], mode, world)
        invariant r.Threw? <==> AnyReadFails(batch[..j], world)
      {
        ActivateAllConcat(old(View()), batch[..j], [batch[j]], mode, world);
        assert batch[..j + 1] == batch[..j] + [batch[j]] && [batch[j]][1..] == [];
        ActivateStoredWorkflow(batch[j], mode, world(batch[j]));
        if world(batch[j]).ReadFails? {
          r := Threw("read");
        }
        j := j + 1;
      }
      assert batch[..j] == batch;
    }
  }

  predicate AnyReadFails(ids: seq<WorkflowId>, world: World) {
    exists k :: 0 <= k < |ids| && world(ids[k]).ReadFails?
  }

  lemma ReadFailsConcat(a: seq<WorkflowId>, b: seq<WorkflowId>, world: World)
    ensures AnyReadFails(a + b, world) <==> AnyReadFails(a, world) || AnyReadFails(b, world)
  {
    if k :| 0 <= k < |b| && world(b[k]).ReadFails? {
      assert (a + b)[|a| + k] == b[k];
    }
    if k :| 0 <= k < |a| && world(a[k]).ReadFails? {
      assert (a + b)[k] == a[k];
    }
  }

  lemma {:induction false} ActivateAllConcat(m: Manager, a: seq<WorkflowId>, b: seq<WorkflowId>, mode: ActivateMode,
                                             world: World)
    ensures ActivateAll(m, a + b, mode, world) == ActivateAll(ActivateAll(m, a, mode, world), b, mode, world)
    decreases |a|
  {
    if a == [] {
      assert a + b == b;
    } else {
      assert (a + b)[0] == a[0] && (a + b)[1..] == a[1..] + b;
      ActivateAllConcat(ActivateWorkflow(m, a[0], mode, world(a[0])), a[1..], b, mode, world);
    }
  }
}
