/** Batch activation: every stored workflow ends as its own attempt decides, in any order,
    for any batch size and however the activations interleave. */
module BatchActivation {
  import opened Wrappers
  import opened WorkflowActivation
  import opened ActivationSafety

  /** What concerns one workflow, without the handle of its timer. */
  datatype Slot = Slot(queued: Option<(ActivateMode, int)>, armed: bool, error: Option<string>, inMemory: bool)

  function SlotOf(m: Manager, w: WorkflowId): Slot {
    Slot(if w in m.queued then Some((m.queued[w].mode, m.queued[w].lastTimeout)) else None,
         Armed(m, w), Lookup(m.errors, w), w in m.memory)
  }

  /** The slot that `add` itself leaves, before any requeueing. */
  function Added(slot: Slot, isLeader: bool, outcome: Outcome): Slot {
    var placed := slot.(inMemory := if isLeader && PlacementOf(outcome) != Untouched then PlacementOf(outcome).Placed?
                                    else slot.inMemory);
    match outcome
    case Succeeds(_) => placed.(queued := None, armed := false, error := None)
    case FailsBefore(_, message) => placed.(error := Some(message))
    case FailsAfter(_, message) => placed.(queued := None, armed := false, error := Some(message))
    case FailsSave(_, _) => placed.(queued := None, armed := false, error := None)
  }

  /** What one activation makes of a workflow: nothing for a missing or inactive one,
      no queue entry after success, a fresh retry after a failure, and after a failed
      authorization no entry but the one that was there. */
  function Expected(slot: Slot, isLeader: bool, mode: ActivateMode, attempt: Attempt): Slot {
    if !attempt.Found? || ((mode.Init? || mode.LeadershipChange?) && !attempt.active) then slot
    else
      var added := Added(slot, isLeader, attempt.outcome);
      if attempt.outcome.Succeeds? || Contains(attempt.outcome.message, "Authorization") then added
      else added.(queued := Some((Init, 1000)), armed := true)
  }

  lemma AddQueuedOwnSlot(m: Manager, mode: ActivateMode, workflow: Workflow)
    ensures SlotOf(AddQueued(m, mode, workflow), workflow.id)
         == SlotOf(m, workflow.id).(queued := Some((mode, 1000)), armed := true)
    ensures AddQueued(m, mode, workflow).isLeader == m.isLeader
  {
  }

  lemma RemoveQueuedOwnSlot(m: Manager, id: WorkflowId)
    ensures SlotOf(RemoveQueued(m, id), id) == SlotOf(m, id).(queued := None, armed := false)
    ensures RemoveQueued(m, id).isLeader == m.isLeader
  {
  }

  lemma AddOwnSlot(m: Manager, workflow: Workflow, mode: ActivateMode, outcome: Outcome)
    requires !SkippedAsInactive(workflow, mode)
    ensures var (m1, r) := Add(m, workflow, mode, false, outcome);
            && SlotOf(m1, workflow.id) == Added(SlotOf(m, workflow.id), m.isLeader, outcome)
            && m1.isLeader == m.isLeader
            && r == (if outcome.Succeeds? then Done else Threw(outcome.message))
  {
    var id := workflow.id;
    var m1 := Install(m, id, outcome);
    assert SlotOf(m1, id).queued == SlotOf(m, id).queued && SlotOf(m1, id).armed == SlotOf(m, id).armed;
    RemoveQueuedOwnSlot(m1, id);
  }

  lemma ActivateOwnSlot(m: Manager, id: WorkflowId, mode: ActivateMode, attempt: Attempt)
    ensures SlotOf(ActivateWorkflow(m, id, mode, attempt), id) == Expected(SlotOf(m, id), m.isLeader, mode, attempt)
    ensures ActivateWorkflow(m, id, mode, attempt).isLeader == m.isLeader
  {
    if attempt.Found? && !SkippedAsInactive(Workflow(id, attempt.active), mode) {
      AddOwnSlot(m, Workflow(id, attempt.active), mode, attempt.outcome);
      AddQueuedOwnSlot(Add(m, Workflow(id, attempt.active), mode, false, attempt.outcome).0, Init,
                       Workflow(id, attempt.active));
    }
  }

  lemma RemoveQueuedOtherSlot(m: Manager, id: WorkflowId, w: WorkflowId)
    requires Handles(m) && w != id
    ensures SlotOf(RemoveQueued(m, id), w) == SlotOf(m, w)
  {
  }

  lemma AddQueuedOtherSlot(m: Manager, mode: ActivateMode, workflow: Workflow, w: WorkflowId)
    requires Handles(m) && w != workflow.id
    ensures SlotOf(AddQueued(m, mode, workflow), w) == SlotOf(m, w)
  {
    RemoveQueuedOtherSlot(m, workflow.id, w);
  }

  lemma BookOtherSlot(m: Manager, id: WorkflowId, outcome: Outcome, w: WorkflowId)
    requires Handles(m) && w != id
    ensures SlotOf(Book(m, id, outcome), w) == SlotOf(m, w)
  {
    RemoveQueuedOtherSlot(m, id, w);
  }

  lemma InstallOtherSlot(m: Manager, id: WorkflowId, outcome: Outcome, w: WorkflowId)
    requires Handles(m) && w != id
    ensures Handles(Install(m, id, outcome)) && SlotOf(Install(m, id, outcome), w) == SlotOf(m, w)
  {
    var m1 := Install(m, id, outcome);
    assert m1 == m.(memory := m1.memory) && (w in m1.memory <==> w in m.memory);
  }

  lemma AddOtherSlot(m: Manager, workflow: Workflow, mode: ActivateMode, outcome: Outcome, w: WorkflowId)
    requires Handles(m) && w != workflow.id
    ensures SlotOf(Add(m, workflow, mode, false, outcome).0, w) == SlotOf(m, w)
  {
    InstallOtherSlot(m, workflow.id, outcome, w);
    BookOtherSlot(Install(m, workflow.id, outcome), workflow.id, outcome, w);
  }

  lemma ActivateOtherSlot(m: Manager, id: WorkflowId, mode: ActivateMode, attempt: Attempt, w: WorkflowId)
    requires Handles(m) && w != id
    ensures SlotOf(ActivateWorkflow(m, id, mode, attempt), w) == SlotOf(m, w)
  {
    if attempt.Found? {
      var workflow := Workflow(id, attempt.active);
      AddOtherSlot(m, workflow, mode, attempt.outcome, w);
      AddHandles(m, workflow, mode, false, attempt.outcome);
      AddQueuedOtherSlot(Add(m, workflow, mode, false, attempt.outcome).0, Init, workflow, w);
    }
  }

  ghost predicate Distinct(ids: seq<WorkflowId>) {
    forall i, j :: 0 <= i < j < |ids| ==> ids[i] != ids[j]
  }

  /** A batch activation decides every stored workflow on its own. */
  lemma {:induction false} BatchPointwise(m: Manager, ids: seq<WorkflowId>, mode: ActivateMode, world: World,
                                          w: WorkflowId)
    requires Handles(m) && Distinct(ids)
    ensures SlotOf(ActivateAll(m, ids, mode, world), w)
         == if w in ids then Expected(SlotOf(m, w), m.isLeader, mode, world(w)) else SlotOf(m, w)
    decreases |ids|
  {
    if ids != [] {
      var m1 := ActivateWorkflow(m, ids[0], mode, world(ids[0]));
      ActivateHandles(m, ids[0], mode, world(ids[0]));
      BatchPointwise(m1, ids[1..], mode, world, w);
      ActivateOwnSlot(m, ids[0], mode, world(ids[0]));
      if w != ids[0] {
        ActivateOtherSlot(m, ids[0], mode, world(ids[0]), w);
      }
    }
  }

  /** Order and batch size do not matter: any two batch sizes of at least one and any
      two orders of the stored ids lead to the same outcome for every workflow. */
  lemma BatchIndependent(m: Manager, ids: seq<WorkflowId>, ids': seq<WorkflowId>, size: int, size': int,
                         mode: ActivateMode, world: World, w: WorkflowId)
    requires Handles(m) && Distinct(ids) && Distinct(ids') && (forall id :: id in ids <==> id in ids')
    requires size >= 1 && size' >= 1
    ensures SlotOf(ActivateAll(m, Flatten(Chunk(ids, size)), mode, world), w)
         == SlotOf(ActivateAll(m, Flatten(Chunk(ids', size')), mode, world), w)
  {
    FlattenChunk(ids, size);
    FlattenChunk(ids', size');
    BatchPointwise(m, ids, mode, world, w);
    BatchPointwise(m, ids', mode, world, w);
  }

  // ---------------------------------------------------------------------------
  // Activations interleaved at their awaits
  // ---------------------------------------------------------------------------

  /** What an activation does between its awaits, stage by stage: it places the workflow,
      takes it out of the queue or records why not, records a later error, and queues a
      retry. */
  function Stage(m: Manager, id: WorkflowId, n: nat, mode: ActivateMode, attempt: Attempt): Manager {
    if !attempt.Found? || SkippedAsInactive(Workflow(id, attempt.active), mode) then m
    else
      var outcome := attempt.outcome;
      if n == 0 then Install(m, id, outcome)
      else if n == 1 then
        (if outcome.FailsBefore? then Register(m, id, outcome.message) else Deregister(RemoveQueued(m, id), id))
      else if n == 2 && outcome.FailsAfter? then Register(m, id, outcome.message)
      else if n == 3 && Requeues(outcome) then AddQueued(m, Init, Workflow(id, attempt.active))
      else m
  }

  const STAGES := 4

  predicate Requeues(outcome: Outcome) {
    !outcome.Succeeds? && !Contains(outcome.message, "Authorization")
  }

  /** With nothing in between the stages are one activation. */
  lemma StagesActivate(m: Manager, id: WorkflowId, mode: ActivateMode, attempt: Attempt)
    ensures Stage(Stage(Stage(Stage(m, id, 0, mode, attempt), id, 1, mode, attempt), id, 2, mode, attempt),
                  id, 3, mode, attempt)
         == ActivateWorkflow(m, id, mode, attempt)
  {
  }

  function StagesDone(done: map<WorkflowId, nat>, id: WorkflowId): nat {
    if id in done then done[id] else 0
  }

  /** Each place in `order` is the next stage of the activation of that workflow. */
  function Interleave(m: Manager, done: map<WorkflowId, nat>, order: seq<WorkflowId>, mode: ActivateMode, world: World)
    : Manager
    decreases |order|
  {
    if order == [] then m
    else
      var id := order[0];
      var n := StagesDone(done, id);
      Interleave(Stage(m, id, n, mode, world(id)), done[id := n + 1], order[1..], mode, world)
  }

  /** What a stage makes of the slot of its workflow. */
  function SlotStage(slot: Slot, isLeader: bool, n: nat, mode: ActivateMode, attempt: Attempt): Slot {
    if !attempt.Found? || ((mode.Init? || mode.LeadershipChange?) && !attempt.active) then slot
    else
      var outcome := attempt.outcome;
      if n == 0 then
        slot.(inMemory := if isLeader && PlacementOf(outcome) != Untouched then PlacementOf(outcome).Placed?
                          else slot.inMemory)
      else if n == 1 then
        (if outcome.FailsBefore? then slot.(error := Some(outcome.message))
         else slot.(queued := None, armed := false, error := None))
      else if n == 2 && outcome.FailsAfter? then slot.(error := Some(outcome.message))
      else if n == 3 && Requeues(outcome) then slot.(queued := Some((Init, 1000)), armed := true)
      else slot
  }

  /** `k` stages from stage `n` on. */
  function SlotStages(slot: Slot, isLeader: bool, n: nat, k: nat, mode: ActivateMode, attempt: Attempt): Slot
    decreases k
  {
    if k == 0 then slot
    else SlotStages(SlotStage(slot, isLeader, n, mode, attempt), isLeader, n + 1, k - 1, mode, attempt)
  }

  lemma AllStages(slot: Slot, isLeader: bool, mode: ActivateMode, attempt: Attempt)
    ensures SlotStages(slot, isLeader, 0, STAGES, mode, attempt) == Expected(slot, isLeader, mode, attempt)
  {
    var s1 := SlotStage(slot, isLeader, 0, mode, attempt);
    var s2 := SlotStage(s1, isLeader, 1, mode, attempt);
    var s3 := SlotStage(s2, isLeader, 2, mode, attempt);
    var s4 := SlotStage(s3, isLeader, 3, mode, attempt);
    assert SlotStages(s4, isLeader, 4, 0, mode, attempt) == s4;
    assert SlotStages(s3, isLeader, 3, 1, mode, attempt) == s4;
    assert SlotStages(s2, isLeader, 2, 2, mode, attempt) == s4;
    assert SlotStages(s1, isLeader, 1, 3, mode, attempt) == s4;
  }

  lemma InstallOwnSlot(m: Manager, id: WorkflowId, outcome: Outcome)
    ensures SlotOf(Install(m, id, outcome), id)
         == SlotOf(m, id).(inMemory := if m.isLeader && PlacementOf(outcome) != Untouched
                                       then PlacementOf(outcome).Placed? else id in m.memory)
    ensures Install(m, id, outcome).isLeader == m.isLeader
  {
  }

  lemma TakeOutOwnSlot(m: Manager, id: WorkflowId)
    ensures SlotOf(Deregister(RemoveQueued(m, id), id), id)
         == SlotOf(m, id).(queued := None, armed := false, error := None)
    ensures RemoveQueued(m, id).isLeader == m.isLeader
  {
    RemoveQueuedOwnSlot(m, id);
  }

  lemma StageKeepsRole(m: Manager, id: WorkflowId, n: nat, mode: ActivateMode, attempt: Attempt)
    ensures Stage(m, id, n, mode, attempt).isLeader == m.isLeader
  {
    if attempt.Found? {
      InstallOwnSlot(m, id, attempt.outcome);
      RemoveQueuedOwnSlot(m, id);
      AddQueuedOwnSlot(m, Init, Workflow(id, attempt.active));
    }
  }

  lemma RegisterOwnSlot(m: Manager, id: WorkflowId, message: string)
    ensures SlotOf(Register(m, id, message), id) == SlotOf(m, id).(error := Some(message))
  {
  }

  lemma StageOwnSlot(m: Manager, id: WorkflowId, n: nat, mode: ActivateMode, attempt: Attempt)
    ensures SlotOf(Stage(m, id, n, mode, attempt), id) == SlotStage(SlotOf(m, id), m.isLeader, n, mode, attempt)
  {
    if attempt.Found? && !SkippedAsInactive(Workflow(id, attempt.active), mode) {
      if n == 0 {
        InstallOwnSlot(m, id, attempt.outcome);
      } else if n == 1 && !attempt.outcome.FailsBefore? {
        TakeOutOwnSlot(m, id);
      } else if n == 1 || (n == 2 && attempt.outcome.FailsAfter?) {
        RegisterOwnSlot(m, id, attempt.outcome.message);
      } else if n == 3 && Requeues(attempt.outcome) {
        AddQueuedOwnSlot(m, Init, Workflow(id, attempt.active));
      }
    }
  }

  lemma RegisterOtherSlot(m: Manager, id: WorkflowId, message: string, w: WorkflowId)
    requires w != id
    ensures SlotOf(Register(m, id, message), w) == SlotOf(m, w) == SlotOf(Deregister(m, id), w)
  {
  }

  lemma StageOtherSlot(m: Manager, id: WorkflowId, n: nat, mode: ActivateMode, attempt: Attempt, w: WorkflowId)
    requires Handles(m) && w != id
    ensures SlotOf(Stage(m, id, n, mode, attempt), w) == SlotOf(m, w)
  {
    if attempt.Found? && !SkippedAsInactive(Workflow(id, attempt.active), mode) {
      if n == 0 {
        InstallOtherSlot(m, id, attempt.outcome, w);
      } else if n == 1 && !attempt.outcome.FailsBefore? {
        RemoveQueuedOtherSlot(m, id, w);
        RegisterOtherSlot(RemoveQueued(m, id), id, "", w);
      } else if n == 1 || (n == 2 && attempt.outcome.FailsAfter?) {
        RegisterOtherSlot(m, id, attempt.outcome.message, w);
      } else if n == 3 && Requeues(attempt.outcome) {
        AddQueuedOtherSlot(m, Init, Workflow(id, attempt.active), w);
      }
    }
  }

  lemma StageHandles(m: Manager, id: WorkflowId, n: nat, mode: ActivateMode, attempt: Attempt)
    requires Handles(m)
    ensures Handles(Stage(m, id, n, mode, attempt))
  {
    if attempt.Found? && !SkippedAsInactive(Workflow(id, attempt.active), mode) {
      if n == 0 {
        InstallHandles(m, id, attempt.outcome);
      } else if n == 1 && !attempt.outcome.FailsBefore? {
        RemoveQueuedHandles(m, id);
        SameHandles(RemoveQueued(m, id), Deregister(RemoveQueued(m, id), id));
      } else if n == 3 && Requeues(attempt.outcome) {
        AddQueuedHandles(m, Init, Workflow(id, attempt.active));
      } else if n == 1 || (n == 2 && attempt.outcome.FailsAfter?) {
        SameHandles(m, Register(m, id, attempt.outcome.message));
      }
    }
  }

  lemma InstallHandles(m: Manager, id: WorkflowId, outcome: Outcome)
    requires Handles(m)
    ensures Handles(Install(m, id, outcome))
  {
    PlaceKeepsTimers(m, m.isLeader, id, PlacementOf(outcome));
    SameHandles(m, Install(m, id, outcome));
  }

  lemma CountHead(order: seq<WorkflowId>, w: WorkflowId)
    requires order != []
    ensures multiset(order)[w] == multiset(order[1..])[w] + if order[0] == w then 1 else 0
  {
    assert order == [order[0]] + order[1..];
  }

  /** At every moment of every interleaving the slot of a workflow is what its own stages so
      far make of it. */
  lemma {:induction false} InterleavedSlot(m: Manager, done: map<WorkflowId, nat>, order: seq<WorkflowId>,
                                           mode: ActivateMode, world: World, w: WorkflowId)
    requires Handles(m)
    ensures SlotOf(Interleave(m, done, order, mode, world), w)
         == SlotStages(SlotOf(m, w), m.isLeader, StagesDone(done, w), multiset(order)[w], mode, world(w))
    decreases |order|
  {
    if order != [] {
      var id := order[0];
      var n := StagesDone(done, id);
      StageHandles(m, id, n, mode, world(id));
      var m1, done1 := Stage(m, id, n, mode, world(id)), done[id := n + 1];
      StageKeepsRole(m, id, n, mode, world(id));
      CountHead(order, w);
      InterleavedSlot(m1, done1, order[1..], mode, world, w);
      if w == id {
        StageOwnSlot(m, id, n, mode, world(id));
        assert StagesDone(done1, w) == n + 1;
      } else {
        StageOtherSlot(m, id, n, mode, world(id), w);
        assert StagesDone(done1, w) == StagesDone(done, w);
      }
    }
  }

  /** However the activations of a batch interleave, every workflow ends as if they were
      made one after the other. */
  lemma BatchInterleaved(m: Manager, ids: seq<WorkflowId>, order: seq<WorkflowId>, mode: ActivateMode, world: World,
                         w: WorkflowId)
    requires Handles(m) && Distinct(ids)
    requires forall id :: multiset(order)[id] == if id in ids then STAGES else 0
    ensures SlotOf(Interleave(m, map[], order, mode, world), w) == SlotOf(ActivateAll(m, ids, mode, world), w)
  {
    InterleavedSlot(m, map[], order, mode, world, w);
    BatchPointwise(m, ids, mode, world, w);
    AllStages(SlotOf(m, w), m.isLeader, mode, world(w));
  }
}
