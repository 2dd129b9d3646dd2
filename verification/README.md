# Execution lifecycle and workflow activation of n8n, in Dafny

A model of the parts of n8n's `packages/cli` that keep state between requests, with
proofs of what they keep over whole runs.

| file | models |
|---|---|
| `ConcurrencyControl.dfy` | permits by execution mode: `ConcurrencyQueue` as an object, the service that routes modes to queues as a value |
| `ExecutionLifecycle.dfy` | a state machine in which every call into `ActiveExecutions`, every settle handler and every completion is one step |
| `ExecutionSafety.dfy`, `ExecutionPermits.dfy`, `ExecutionRounds.dfy`, `Shutdown.dfy` | what every sequence of those steps keeps |
| `ActiveExecutions.dfy` | `ActiveExecutions` and the runner's callbacks as methods that update entries in place, each proved to be its step |
| `WorkflowTimeouts.dfy` | hard stop of an execution, deadlines of nested calls |
| `CredentialTypes.dfy`, `CredentialsOverwrites.dfy` | ancestor lists and overwrite inheritance |
| `CredentialRepair.dfy` | repair of credential references with two caches |
| `Runs.dfy` | runs of a deterministic step function, and invariants that hold exactly unless a step is of some kind |
| `WorkflowActivation.dfy`, `ActivationSafety.dfy`, `Deactivation.dfy`, `BatchActivation.dfy` | retry queue, backoff, activation errors, deactivation and batch activation of one main instance |
| `LeaderCluster.dfy` | several main instances, a leader key that expires, published commands |
| `WaitTracker.dfy` | entries and timers of waiting executions |
| `NodeLoading.dfy`, `Rebuild.dfy` | post-processing of the loaders, with the sharing of option arrays made explicit, and repeated rebuilds |

Code that works step by step is a class or a method with a loop. Its `ensures` says that
the new state is a function of the old one; the lemmas are about that function, so they
hold of the methods. Interleavings are sequences of events. These are split at their
awaits, so that anything may come in between: asking for a permit and storing the entry;
settling a promise and running its handler; a retry (it starts, it leaves the queue, it
ends); in `LeaderCluster` an activation (it begins, it ends), a step-down and each turn of
its removal loop, reading the leader key and taking it. The activations of a batch are
split and interleaved with each other (`BatchInterleaved`). Every other asynchronous
handler is one step.

Where a property does not hold of the code without a side condition, a lemma named `…Iff`
gives the exact condition for these events, and an example starts from a concrete state
and shows what happens outside it:

- Stopping or resuming a waiting execution before its promise has settled loses its permit
  for good (`TrackedRunIff`, `LostForever`, `LostPermit`, `LostPermitExample`).
- Removing a queued execution while another one waits behind the same limit lets that
  other one start although no permit came back (`LimitRunIff`, `OverAdmissionExample`).
- A failure whose message contains "cancelled" leaves the post-execution promise pending
  (`EndSettlesIff`, `SettledByFirst`, `CancelledExample`).
- A run whose handler found it `waiting` during shutdown keeps the wait loop going
  (`WaitEndsIff`, `WaitingRunBlocks`, `BlockedShutdownExample`).
- `getOverwrites` lets the last parent win and `get` the first, so the in-place resolution
  is invisible exactly under single inheritance (`ResolutionInvisibleIff`,
  `TwoParentsDisagree`).
- A reference that cannot be resolved lends its name to later references with the same
  missing id (`RepairAgreesIff`, `StaleExample`).
- A trigger error during a retry arms a second timer, and if the retry fails as well a
  third, which takes the place of the second in the queue entry while that one stays armed
  (`RecordedRunIff`, `ActivationSafety.TwoTimersExample`).
- An old retry activates a workflow that has been deactivated: in single-main exactly if the
  retry is under way and has still to place it, or its timer is armed and forgotten by the
  queue entry (`RemovalHoldsIff`, `RemovedDuringRetryExample`, `ForgottenTimerExample`); in
  multi-main, where it asks for the activation, exactly if a timer of it is armed at all
  (`TakeDownHoldsIff`, `ReactivationExample`).
- A failing final save of static data queues a workflow without a recorded error
  (`ExplainedRunIff`, `UnexplainedExample`).
- The leader key can be taken before its old holder notices, or while it still removes; an
  activation that began as leader can end after the step-down; a failing close function
  ends the removal loop (`ExclusiveRunIff`, `OverlapExample`, `SlowRemovalExample`,
  `StaleRoleExample`, `FailingCloseExample`).
- A leader loses a workflow that it has activated exactly if a removal begun in an earlier
  step-down has still to come to it (`LeaderKeepsIff`, `ReclaimExample`).
- Leading and holding the key are the same until a leader's key runs out, a stale reading of
  it is acted on, or a leader dies and comes back under the host id that holds the key, which
  it then renews while nobody leads (`KeyLeadsRunIff`, `LeaderlessRunIff`,
  `OrphanedKeyExample`).
- `stopTracking` keeps the entries of the timers it clears, and no later poll arms them
  again; a parent resumed by its child keeps its timer (`LinkedRunIff`, `StoppedNeverStarts`,
  `WaitTracker.TwoTimersExample`).
- A first rebuild makes the tools of a description before the option arrays it shares with
  others are extended, a second one after (`RebuildIff`, `SharedListExample`).

## Model

| member | source | states |
|---|---|---|
| `ConcurrencyControl.IndexOf` | packages/cli/src/concurrency/concurrency-queue.ts:46-48 | the first waiting execution with the id, or past the end if there is none |
| `ConcurrencyControl.ConcurrencyQueue.constructor` | packages/cli/src/concurrency/concurrency-queue.ts:18-20 | a queue starts with its full capacity and nobody waiting |
| `ConcurrencyControl.ConcurrencyQueue.Enqueue` | packages/cli/src/concurrency/concurrency-queue.ts:22-33 | takes one from the capacity; goes through if that leaves it non-negative, else waits at the end |
| `ConcurrencyControl.ConcurrencyQueue.Dequeue` | packages/cli/src/concurrency/concurrency-queue.ts:39-43 | gives one back and lets the longest waiting through |
| `ConcurrencyControl.ConcurrencyQueue.Remove` | packages/cli/src/concurrency/concurrency-queue.ts:45-55 | takes the first entry with the id out, gives one back and lets the next through; nothing for an unknown id |
| `ConcurrencyControl.ConcurrencyQueue.ResolveNext` | packages/cli/src/concurrency/concurrency-queue.ts:65-75 | resolves the head of the queue, if any |
| `ConcurrencyControl.ThrottleBalanced` | packages/cli/src/concurrency/concurrency-control.service.ts:117-121 | asking for capacity keeps capacity + waiting + admitted + held equal to the limit, lets nobody wait while there is room, and keeps the limit |
| `ConcurrencyControl.ReleaseBalanced` | packages/cli/src/concurrency/concurrency-control.service.ts:126-130 | giving back one permit keeps the same balance with one less held, and the limit |
| `ConcurrencyControl.AdmitBalanced` | packages/cli/src/active-executions.ts:71-103 | when an admitted `add` stores its entry its permit becomes that of the run; the number in flight stays |
| `ConcurrencyControl.RemoveBalanced` | packages/cli/src/concurrency/concurrency-control.service.ts:135-139 | removing a queued execution keeps the balance, and keeps the limit if and only if no other execution waits in that queue |
| `ExecutionLifecycle.OnSettled` | packages/cli/src/active-executions.ts:106-120 | a settle handler changes no identity, start time or settlement of any run |
| `ExecutionLifecycle.Stop` | packages/cli/src/active-executions.ts:157-174 | a stop runs no handler, gives back no permit and overrides no settlement |
| `ExecutionLifecycle.ShutdownVisit` | packages/cli/src/active-executions.ts:263-273 | a visit of the shutdown loop runs no handler, releases no permit and overrides no settlement |
| `ExecutionSafety.HandlerKeepsOtherRounds` | packages/cli/src/active-executions.ts:111-120 | the handler of a run removes no entry but its own, so an earlier round never removes a later one's |
| `ExecutionSafety.TrackedStepIff` | packages/cli/src/active-executions.ts:92-120 | one step keeps every run with an outstanding handler either the entry of its id or an already settled waiting run, exactly when it does not unlink an unreleased entry |
| `ExecutionSafety.TrackedRunIff` | packages/cli/src/active-executions.ts:71-174 | over every interleaving that holds throughout if and only if ids are resumed only when absent or released, and waiting entries are stopped only after settling |
| `ExecutionSafety.LostForever` | packages/cli/src/active-executions.ts:165-168 | a run unlinked before it settled stays pending and unhandled in every continuation |
| `ExecutionPermits.LostPermit` | packages/cli/src/active-executions.ts:157-174 | in every continuation before shutdown the permit of a lost run stays with it: free capacity, waiting, admitted and all other unhandled runs share one permit less than the limit |
| `ExecutionPermits.LostPermitExample` | packages/cli/src/active-executions.ts:165-168 | limit one: an execution is admitted, starts to wait and is stopped; from then on, within the limit, no other one is ever in flight |
| `ExecutionPermits.CancelledExample` | packages/cli/src/workflow-runner.ts:77-88 | limit one: an execution fails with "Request was cancelled"; until something else ends it its promise is pending and its entry stays, and within the limit no other one is ever in flight |
| `ExecutionPermits.PermitsConserved` | packages/cli/src/active-executions.ts:71-120 | for each mode's queue and every interleaving before shutdown, free capacity, waiting, admitted and unhandled runs always add up to the limit |
| `ExecutionPermits.PermitsStep` | packages/cli/src/active-executions.ts:71-120 | one step keeps that sum, and keeps the limit exactly unless it removes a queued execution past another one |
| `ExecutionPermits.LimitRunIff` | packages/cli/src/concurrency/concurrency-control.service.ts:115-139 | the number in flight stays within the limit throughout a run if and only if no queued execution is removed past another one |
| `ExecutionPermits.OverAdmissionExample` | packages/cli/src/concurrency/concurrency-queue.ts:45-55 | limit one, one in flight and two queued: removing one puts two in flight |
| `ExecutionRounds.CarryStep` | packages/cli/src/active-executions.ts:92-103 | while an id stays in the map each step carries the start time and, unless one is attached, the response promise |
| `ExecutionRounds.CarriedOverRounds` | packages/cli/src/active-executions.ts:92-103 | over any number of wait and resume rounds the first start time and the current response promise are those of the last round |
| `ExecutionRounds.FirstSettlementWins` | packages/cli/src/active-executions.ts:157-196 | nothing that happens later changes how a run was first settled |
| `ExecutionRounds.EndSettlesIff` | packages/cli/src/workflow-runner.ts:264-357 | completion, failure and stop settle the pending promise to their own result, exactly unless the error reads as a cancellation or the stopped execution is waiting |
| `ExecutionRounds.SettledByFirst` | packages/cli/src/active-executions.ts:157-196 | over every interleaving a pending promise is still pending at the end exactly if no completion, failure, stop, finalisation or shutdown cancellation met its run as the entry of its id without being dropped, and otherwise has the result of the first that did |
| `ExecutionRounds.UnendedRun` | packages/cli/src/active-executions.ts:106-120 | over any run without an end, finalisation or shutdown visit of it an execution keeps an entry, and all its rounds stay pending |
| `ExecutionRounds.AddMakesOneRun` | packages/cli/src/active-executions.ts:71-103 | `add` makes one run, pending with its handler to come, which becomes the entry of its id and leaves all other runs and entries alone |
| `ExecutionRounds.EndTouchesOwnEntry` | packages/cli/src/workflow-runner.ts:70-131 | a completion, failure, stop or finalisation changes no run but the entry of its id, takes none out of the map but a stopped waiting one, and changes nothing if there is no entry or the error reads as a cancellation |
| `ExecutionRounds.EndThenHandler` | packages/cli/src/active-executions.ts:106-120 | an end followed by the handler leaves the run handled, the id out of the map and one permit released |
| `ExecutionRounds.LateEndAbsorbedIff` | packages/cli/src/workflow-runner.ts:327-346 | a late completion, failure or stop changes no post-execution promise exactly when the id has no entry or a settled one, or the end is dropped |
| `ExecutionRounds.AbsentStepIff` | packages/cli/src/active-executions.ts:103 | an id without an entry gets one from an `add` of that id and from nothing else |
| `ExecutionRounds.LateEndAbsorbed` | packages/cli/src/workflow-runner.ts:77-88 | after an execution has left the map, completions, failures and stops change nothing at all until the id is added again |
| `Shutdown.PassResult` | packages/cli/src/active-executions.ts:263-273 | after the first pass waiting and unselected new entries are gone, selected ones are cancelled, others untouched; no id is looked up after its entry is gone |
| `Shutdown.PassOnlyRemoves` | packages/cli/src/active-executions.ts:263-273 | the pass adds no entry and changes no run that is not an entry |
| `Shutdown.ToCancelIff` | packages/cli/src/active-executions.ts:262-268 | `toCancel` are exactly the entries that had a response promise, or all of them when all are cancelled in regular mode |
| `Shutdown.PassExclusive` | packages/cli/src/active-executions.ts:263-278 | from a tracked state, after the pass no handler but an entry's own can remove it |
| `Shutdown.WaitStep` | packages/cli/src/active-executions.ts:277-286 | without adds an id stays in the map exactly until its own handler finds it not waiting, or it is removed while waiting |
| `Shutdown.WaitEndsIff` | packages/cli/src/active-executions.ts:277-286 | without adds the wait loop finds an empty map if and only if every remaining entry has left that way |
| `Shutdown.WaitingRunBlocks` | packages/cli/src/active-executions.ts:113-115 | a run whose handler found it waiting stays in the map until something stops it |
| `Shutdown.BlockedShutdownExample` | packages/cli/src/active-executions.ts:263-286 | an execution that turns waiting after the first pass and then settles keeps the map from emptying in every continuation without adds and stops |
| `ActiveExecutions.ActiveExecutions.constructor` | packages/cli/src/active-executions.ts:26-41 | no runs, no entries |
| `ActiveExecutions.ActiveExecutions.Add` | packages/cli/src/active-executions.ts:92-124 | the in-place `add` is the step `Add`: fresh entry, inherited start time and response promise, same other objects |
| `ActiveExecutions.ActiveExecutions.OnSettled` | packages/cli/src/active-executions.ts:106-120 | the closure releases the mode's permit and removes the entry or detaches the waiting execution |
| `ActiveExecutions.ActiveExecutions.StopExecution` | packages/cli/src/active-executions.ts:157-174 | rejects the response promise; removes a waiting entry, else cancels and rejects the execution |
| `ActiveExecutions.ActiveExecutions.FinalizeExecution` | packages/cli/src/active-executions.ts:177-196 | resolves the promise of the entry, if there is one |
| `ActiveExecutions.ActiveExecutions.SetStatus` | packages/cli/src/active-executions.ts:244-246 | sets the status of the entry, or reports that there is none |
| `ActiveExecutions.ActiveExecutions.AttachWorkflowExecution` | packages/cli/src/active-executions.ts:131-133 | attaches to the entry, or reports that there is none |
| `ActiveExecutions.ActiveExecutions.AttachResponsePromise` | packages/cli/src/active-executions.ts:135-140 | the same for the response promise |
| `ActiveExecutions.ActiveExecutions.ResolveExecutionResponsePromise` | packages/cli/src/active-executions.ts:199-212 | resolves the response promise of an entry that is not waiting |
| `ActiveExecutions.ActiveExecutions.WorkflowCompleted` | packages/cli/src/workflow-runner.ts:327-336 | the completion callback is the step `Completed` |
| `ActiveExecutions.ActiveExecutions.ProcessError` | packages/cli/src/workflow-runner.ts:70-131 | the failure callback is the step `Failed` |
| `ActiveExecutions.ActiveExecutions.VisitForShutdown` | packages/cli/src/active-executions.ts:264-272 | one turn of the loop, and whether the id is to be cancelled |
| `ActiveExecutions.ActiveExecutions.ShutdownPass` | packages/cli/src/active-executions.ts:254-273 | the whole pass never misses an entry, and ends in the state and with the list that `PassResult` and `ToCancelIff` describe |
| `WorkflowTimeouts.ArmTimeouts` | packages/cli/src/workflow-runner.ts:223-325 | a positive effective limit stops the execution at max(now, startedAt + min(setting, maximum) * 1000), however often it waited; an exhausted budget stops it at once; no limit arms nothing |
| `WorkflowTimeouts.SubworkflowTimeout` | packages/cli/src/workflow-execute-additional-data.ts:243-255 | a sub-workflow's timestamp is no later than a caller's non-zero one nor than its own start plus limit, and is absent exactly if the caller has none and it has no limit |
| `WorkflowTimeouts.DeadlineNeverLater` | packages/cli/src/workflow-execute-additional-data.ts:243-255 | along any chain of calls a deadline is no later than any deadline above it or than the call's own limit, and absent only if nobody above set one |
| `WorkflowTimeouts.ChildNoLaterIff` | packages/cli/src/workflow-execute-additional-data.ts:249-252 | one call keeps to its caller's timestamp exactly unless that is 0 and the call has a limit of its own |
| `CredentialTypes.GetParentTypes` | packages/cli/src/credential-types.ts:26-38 | the loop over the array that it extends ends, and returns the list the lemmas below are about |
| `CredentialTypes.DrainVisits` | packages/cli/src/credential-types.ts:31-35 | the list has the elements of the depth-first visits of the hierarchy, each as often |
| `CredentialTypes.ParentTypesAreAncestors` | packages/cli/src/credential-types.ts:26-38 | for an acyclic hierarchy the elements are exactly the strict ancestors |
| `CredentialTypes.ParentTypesOrder` | packages/cli/src/credential-types.ts:31-35 | with any number of parents: first the direct parents, then the whole list of each in turn |
| `CredentialTypes.ChainComesFirst` | packages/cli/src/credential-types.ts:26-38 | on a chain the list starts with the ancestors, nearest first, and has no others |
| `CredentialsOverwrites.CredentialsOverwrites.constructor` | packages/cli/src/credentials-overwrites.ts:16-27 | starts from the resolved form of the configured data |
| `CredentialsOverwrites.CredentialsOverwrites.SetData` | packages/cli/src/credentials-overwrites.ts:29-42 | stores each type's resolved overwrites in place, in the given key order, with one memo for all |
| `CredentialsOverwrites.CredentialsOverwrites.GetOverwrites` | packages/cli/src/credentials-overwrites.ts:63-93 | result and memo of the recursive resolution, which ends on an acyclic hierarchy |
| `CredentialsOverwrites.CredentialsOverwrites.ApplyOverwrite` | packages/cli/src/credentials-overwrites.ts:44-61 | fills exactly the null, undefined and empty fields that have an effective overwrite |
| `CredentialsOverwrites.ReduceReversed` | packages/cli/src/credentials-overwrites.ts:95-102 | folding the reversed list lets the first type that has a field win |
| `CredentialsOverwrites.EffectiveIsFirst` | packages/cli/src/credentials-overwrites.ts:95-102 | field by field, `get` takes the value of the first of the type and its parent types that has it |
| `CredentialsOverwrites.EffectiveIsNearest` | packages/cli/src/credentials-overwrites.ts:95-102 | under single inheritance that is the recursive own-over-parent definition |
| `CredentialsOverwrites.ResolveWithin` | packages/cli/src/credentials-overwrites.ts:63-93 | under single inheritance, whatever the memo says, a resolved type keeps its own overwrites and gains only what its ancestors supply |
| `CredentialsOverwrites.ResolutionIsInvisible` | packages/cli/src/credentials-overwrites.ts:29-42 | under single inheritance, for every key order and memo, the in-place resolution changes nothing that `get` returns |
| `CredentialsOverwrites.OverwriteLaw` | packages/cli/src/credentials-overwrites.ts:29-102 | under single inheritance, after `setData` an empty field is filled from the nearest ancestor-or-self with an overwrite for it, and every other field is left alone |
| `CredentialsOverwrites.SetDataIdempotent` | packages/cli/src/credentials-overwrites.ts:29-42 | under single inheritance `setData` on its own output, in any key order, changes nothing observable |
| `CredentialsOverwrites.TwoParentsDisagree` | packages/cli/src/credentials-overwrites.ts:81-101 | for every type with two parents there is data whose resolution changes what `get` returns |
| `CredentialsOverwrites.ResolutionInvisibleIff` | packages/cli/src/credentials-overwrites.ts:29-102 | resolution is invisible for all data and key orders if and only if no type has two parents |
| `CredentialRepair.ReplaceInvalidCredentials` | packages/cli/src/workflow-helpers.ts:67-171 | the pass over the node objects, in place with both caches, gives every node the specified credentials |
| `CredentialRepair.RepairNode` | packages/cli/src/workflow-helpers.ts:79-84 | one node's references in order, skipping disabled nodes and nodes without credentials |
| `CredentialRepair.RepairEntry` | packages/cli/src/workflow-helpers.ts:86-166 | one reference, by name or by id, with the branches of the source |
| `CredentialRepair.RepairStep` | packages/cli/src/workflow-helpers.ts:86-166 | both caches keep holding only what the database says or what an unresolvable reference left |
| `CredentialRepair.AgreesUnlessStale` | packages/cli/src/workflow-helpers.ts:119-166 | one cached repair gives what a lookup of its own would give, exactly unless an earlier unresolvable reference left another name under its missing id |
| `CredentialRepair.RepairAgreesIff` | packages/cli/src/workflow-helpers.ts:67-171 | the cached pass agrees with per-reference lookups on every enabled node, up to the form of a bare name, if and only if no such reference precedes another |
| `CredentialRepair.RepairKeepsShape` | packages/cli/src/workflow-helpers.ts:79-84 | disabled nodes and nodes without credentials are unchanged, and no reference is added, dropped or retyped |
| `CredentialRepair.StaleExample` | packages/cli/src/workflow-helpers.ts:159-166 | two references to one missing id: the second is given the name of the first |
| `WorkflowActivation.FlattenChunk` | packages/cli/src/active-workflow-manager.ts:443 | the batches hold every id once, in order, for a size of at least one, and nothing below |
| `WorkflowActivation.ActiveWorkflowManager.constructor` | packages/cli/src/active-workflow-manager.ts:71-93 | empty queue, no timers, nothing in memory |
| `WorkflowActivation.ActiveWorkflowManager.AddQueuedWorkflowActivation` | packages/cli/src/active-workflow-manager.ts:766-818 | replaces any earlier entry and its timer by a fresh one of the initial delay |
| `WorkflowActivation.ActiveWorkflowManager.RemoveQueuedWorkflowActivation` | packages/cli/src/active-workflow-manager.ts:823-828 | drops the entry and clears its timer |
| `WorkflowActivation.ActiveWorkflowManager.AddWorkflow` | packages/cli/src/active-workflow-manager.ts:537-635 | publishing, skipping, success and each place of failure: effect on memory, queue and errors, and whether it throws |
| `WorkflowActivation.ActiveWorkflowManager.RetryFires` | packages/cli/src/active-workflow-manager.ts:773-779 | the retry function up to its first await: its timer is gone, and it publishes, skips, or is under way with the role it reads |
| `WorkflowActivation.ActiveWorkflowManager.RetryDequeues` | packages/cli/src/active-workflow-manager.ts:599-619 | a retry under way has placed its workflow and takes it out of the queue, together with whatever timer the entry has by then |
| `WorkflowActivation.ActiveWorkflowManager.RetryEnds` | packages/cli/src/active-workflow-manager.ts:780-805 | its end: the error of a failure, and the doubled and newly armed delay if the entry is there |
| `WorkflowActivation.ActiveWorkflowManager.EmitError` | packages/cli/src/active-workflow-manager.ts:370-394 | a trigger error unloads, records the error and queues a retry |
| `WorkflowActivation.ActiveWorkflowManager.RemoveWorkflow` | packages/cli/src/active-workflow-manager.ts:846-883 | single-main clears error, retry and memory; multi-main only publishes; throws exactly when closing fails |
| `WorkflowActivation.ActiveWorkflowManager.RemoveAllTriggerAndPollerBasedWorkflows` | packages/core/src/execution-engine/active-workflows.ts:218-253 | empties the memory if and only if no close function fails, else stops at the first that does |
| `WorkflowActivation.ActiveWorkflowManager.ActivateStoredWorkflow` | packages/cli/src/active-workflow-manager.ts:459-497 | missing, processed, queued for retry after a failure, or given up on an authorization error |
| `WorkflowActivation.ActiveWorkflowManager.AddActiveWorkflows` | packages/cli/src/active-workflow-manager.ts:427-457 | the guard refuses re-entry, every stored id is attempted in batches unless a read fails, the rest of whose batch counts as made, and the in-progress flag is always cleared |
| `ActivationSafety.RecordedStepIff` | packages/cli/src/active-workflow-manager.ts:766-828 | one step keeps every armed timer the one in its workflow's entry, exactly unless it is the failing end of a retry whose workflow is armed again |
| `ActivationSafety.RecordedRunIff` | packages/cli/src/active-workflow-manager.ts:766-828 | over every run and interleaving every armed timer is the one in its workflow's entry, and so its only one (`OneTimer`), if and only if no retry fails under a timer that was armed during it |
| `ActivationSafety.TwoTimersExample` | packages/cli/src/active-workflow-manager.ts:776-799 | a trigger fails again while its retry is under way and the retry fails too: two timers of one workflow are armed |
| `ActivationSafety.HandlesStep` | packages/cli/src/active-workflow-manager.ts:766-828 | in every reachable state, that one included, handles are given out once and the timer in an entry, if armed, is for its workflow and has its delay |
| `ActivationSafety.RetryIsAdd` | packages/cli/src/active-workflow-manager.ts:773-805 | a retry with nothing in between is one call of `add`, and a new timer with the doubled delay if that throws and the entry is still there |
| `ActivationSafety.RetryContinuesIff` | packages/cli/src/active-workflow-manager.ts:779-805 | a retry of the recorded timer with nothing in between stays queued and armed, with the doubled capped delay, exactly when it fails before the dequeue |
| `Deactivation.RemovedDuringRetryExample` | packages/cli/src/active-workflow-manager.ts:779-879 | a workflow removed while its retry is under way is in memory again when the retry works |
| `Deactivation.TakeDownCancelsRetryIff` | packages/cli/src/active-workflow-manager.ts:846-897 | deactivating leaves a timer of the workflow armed exactly in multi-main, where it publishes the activation again, or if the queue entry has forgotten it |
| `Deactivation.RemovalHoldsIff` | packages/cli/src/active-workflow-manager.ts:773-883 | in single-main a removed workflow stays out of memory in every continuation that does not activate it anew, if and only if its close functions work, no timer of it that would start a retry is armed and forgotten by the queue entry, and no retry of it begun as leader has still to place it |
| `Deactivation.ForgottenTimerExample` | packages/cli/src/active-workflow-manager.ts:776-799 | two timers of one workflow are armed, it is removed, and it does not stay out of memory although the recorded timer is cleared |
| `Deactivation.TakeDownHoldsIff` | packages/cli/src/active-workflow-manager.ts:545-552 | in multi-main no continuation asks for the activation of a deactivated workflow unless it is activated anew, if and only if no timer of it was armed |
| `Deactivation.ReactivationExample` | packages/cli/src/active-workflow-manager.ts:846-883 | a trigger error, a deactivation and the retry on the leader of a multi-main setup publish a removal and then an activation |
| `ActivationSafety.ExplainedStepIff` | packages/cli/src/active-workflow-manager.ts:370-394 | one step keeps an error for every queued workflow exactly unless it clears errors under the queue or queues after a failed save |
| `ActivationSafety.ExplainedRunIff` | packages/cli/src/active-workflow-manager.ts:370-883 | over every run each workflow in the retry queue has a recorded error if and only if no step is of that kind |
| `ActivationSafety.UnexplainedExample` | packages/cli/src/active-workflow-manager.ts:459-497 | a batch activation whose final save fails leaves its workflow queued and without an error |
| `ActivationSafety.BackoffExact` | packages/cli/src/active-workflow-manager.ts:773-817 | from the queueing of a workflow on, after k failed retries, whatever goes on for other workflows, the entry's delay and that of its armed timer are exactly min(1000 * 2^k, 86400000) |
| `ActivationSafety.BackoffMonotone` | packages/cli/src/constants.ts:70-71 | the delay never falls and never exceeds one day |
| `ActivationSafety.BackoffConstantIff` | packages/cli/src/constants.ts:70-71 | it is one day exactly from the 17th failure on |
| `BatchActivation.BatchPointwise` | packages/cli/src/active-workflow-manager.ts:445-497 | after a batch activation every stored workflow is in the state that its own attempt decides, and every other one as before |
| `BatchActivation.BatchIndependent` | packages/cli/src/active-workflow-manager.ts:443-452 | the outcome for each workflow is the same for any two batch sizes of at least one and any two orders |
| `BatchActivation.InterleavedSlot` | packages/cli/src/active-workflow-manager.ts:445-497 | with the activations of a batch split at their awaits and interleaved at will, at every moment each workflow is in the state that its own stages so far make of it |
| `BatchActivation.BatchInterleaved` | packages/cli/src/active-workflow-manager.ts:445-451 | once all stages are done every workflow is as if the activations had been made one after the other |
| `LeaderCluster.RemoveAllLeaves` | packages/core/src/execution-engine/active-workflows.ts:218-230 | removing all leaves something exactly when a close function of something in memory fails |
| `LeaderCluster.RunLoopIsRemoveAll` | packages/core/src/execution-engine/active-workflows.ts:218-230 | the turns of a removal with nothing in between leave in memory what the loop leaves |
| `LeaderCluster.OneHome` | packages/cli/src/active-workflow-manager.ts:980-989 | in an exclusive state a workflow in memory is there on one instance, which leads, or is about to remove it while nobody else leads |
| `LeaderCluster.HomedStepIff` | packages/cli/src/active-workflow-manager.ts:505-614 | any step keeps on followers only what a removal under way will come to, exactly unless an activation begun as leader, a failing close or a failed attempt on the key leaves a follower with something that no other removal comes to |
| `LeaderCluster.AloneStepIff` | packages/cli/src/scaling/multi-main-setup.ee.ts:70-129 | any step keeps a single instance that leads or has something in memory, exactly unless it takes the key, or places a workflow late, while another instance does |
| `LeaderCluster.ExclusiveRunIff` | packages/cli/src/active-workflow-manager.ts:505-897 | over every run of expiries, checks, takeovers, removals turn by turn, commands, retries, trigger errors, overlapping activations, restarts and crashes, memory is on one instance alone, the leader or one that is removing it, if and only if no step is of those kinds |
| `LeaderCluster.KeyLeadsStepIff` | packages/cli/src/scaling/multi-main-setup.ee.ts:70-129 | any step keeps leading and holding the key the same, exactly unless a leader's key runs out, an instance acts on a stale reading of the key it holds by now, or the holder dies and comes back under the same host id |
| `LeaderCluster.KeyLeadsRunIff` | packages/cli/src/scaling/multi-main-setup.ee.ts:70-129 | over every run an instance leads if and only if it holds the key, throughout, if and only if no step is of those kinds; meanwhile a takeover overlaps only with instances that still remove (`OverlapUnderKey`) |
| `LeaderCluster.LeaderlessRunIff` | packages/cli/src/scaling/multi-main-setup.ee.ts:66-128 | once the key is held and nobody leads, that stays so over a run if and only if the key does not run out in it |
| `LeaderCluster.OrphanedKeyExample` | packages/core/src/instance-settings/instance-settings.ts:66 | a leader crashes and starts again under the same host name: it fails to take the key, finds itself named in it, and nobody leads |
| `LeaderCluster.OverlapEndsIff` | packages/cli/src/scaling/multi-main-setup.ee.ts:83-95 | an overlap of two leaders ends with the old one's next check and removal exactly if none of its close functions fails and no third instance leads or has something in memory |
| `LeaderCluster.SecureStepIff` | packages/core/src/execution-engine/active-workflows.ts:200-230 | a leader keeps a workflow that no removal will come to, after any step, exactly unless it steps down or ends or the workflow has a removal, trigger error or failing activation of its own there |
| `LeaderCluster.LeaderKeepsIff` | packages/cli/src/scaling/multi-main-setup.ee.ts:98-128 | over every run without such a step a leader keeps a workflow it has in memory, if and only if no removal begun in an earlier step-down has still to come to it |
| `LeaderCluster.AddCommandReachesLeader` | packages/cli/src/active-workflow-manager.ts:658-690 | a delivered command whose activation places its workflow puts it in the leader's memory, in no other, and touches no other workflow |
| `LeaderCluster.OverlapExample` | packages/cli/src/scaling/multi-main-setup.ee.ts:98-128 | the key runs out, another instance takes it, and a workflow is in memory twice |
| `LeaderCluster.SlowRemovalExample` | packages/cli/src/scaling/multi-main-setup.ee.ts:98-106 | a leader finds the key vacant and begins to remove; another takes it and leads while the first still runs the triggers |
| `LeaderCluster.FailingCloseExample` | packages/core/src/execution-engine/active-workflows.ts:223-249 | a close function fails after a step-down: the follower keeps the workflow and no removal is left |
| `LeaderCluster.ReclaimExample` | packages/cli/src/scaling/multi-main-setup.ee.ts:98-128 | an instance takes the key back while its removal is under way and leads without the workflow it has activated again |
| `LeaderCluster.StaleRoleExample` | packages/cli/src/active-workflow-manager.ts:556-614 | an activation that began as leader ends on a follower |
| `WaitTracker.WaitTracker.constructor` | packages/cli/src/wait-tracker.ts:14-32 | no entries and no timers |
| `WaitTracker.WaitTracker.Track` | packages/cli/src/wait-tracker.ts:43-52 | tracking has begun; entries and timers stay |
| `WaitTracker.WaitTracker.GetWaitingExecutions` | packages/cli/src/wait-tracker.ts:54-82 | an entry and a timer for each row that has none yet |
| `WaitTracker.WaitTracker.Stop` | packages/cli/src/wait-tracker.ts:84-90 | clears timer and entry, if tracked |
| `WaitTracker.WaitTracker.TimerFires` | packages/cli/src/wait-tracker.ts:76-93 | the entry goes and the execution starts |
| `WaitTracker.WaitTracker.Start` | packages/cli/src/wait-tracker.ts:92-94 | the removal step of a start, by timer or by a finished child |
| `WaitTracker.WaitTracker.Untrack` | packages/cli/src/wait-tracker.ts:137-147 | clears the timers of all entries and keeps the entries |
| `WaitTracker.LinkedStepIff` | packages/cli/src/wait-tracker.ts:54-147 | one step keeps entries and armed timers in one-to-one correspondence exactly unless it resumes a tracked execution or stops tracking over entries |
| `WaitTracker.LinkedRunIff` | packages/cli/src/wait-tracker.ts:54-147 | over any mix of overlapping polls, fires, stops, resumes and role changes the correspondence holds if and only if no step is of those kinds |
| `WaitTracker.DueIsFirstSeen` | packages/cli/src/wait-tracker.ts:70-81 | in a run that never unlinks, each armed timer is set to the first `waitTill` seen since its execution was last untracked |
| `WaitTracker.DeadStepIff` | packages/cli/src/wait-tracker.ts:70-81 | such an entry stays until an event of its own removes it |
| `WaitTracker.DeadForever` | packages/cli/src/wait-tracker.ts:70-81 | over any run without one the execution is not started, however often it is polled |
| `WaitTracker.StoppedNeverStarts` | packages/cli/src/wait-tracker.ts:137-147 | after tracking stops no tracked execution is started in any run without an event of its own |
| `WaitTracker.TwoTimersExample` | packages/cli/src/wait-tracker.ts:92-133 | a parent resumed by its child and polled again has two armed timers |
| `NodeLoading.LoadNodesAndCredentials.constructor` | packages/cli/src/load-nodes-and-credentials.ts:36-60 | empty tables |
| `NodeLoading.LoadNodesAndCredentials.PostProcessLoaders` | packages/cli/src/load-nodes-and-credentials.ts:335-420 | the tables and the shared objects after a rebuild, and whether it throws |
| `NodeLoading.LoadNodesAndCredentials.CollectFromLoaders` | packages/cli/src/load-nodes-and-credentials.ts:340-411 | the loop over the loaders: qualified names, restricted credentials, restriction of loaded credential objects in place |
| `NodeLoading.LoadNodesAndCredentials.CreateAiTools` | packages/cli/src/load-nodes-and-credentials.ts:308-333 | one tool per usable node, its known entry, and its credentials |
| `NodeLoading.ConvertedIsTool` | packages/cli/src/load-nodes-and-credentials.ts:461-540 | a converted description is not usable again, has one output and no input, and keeps its properties in order, with the describing ones after the last callout unless it has its own description |
| `NodeLoading.LoadNodesAndCredentials.AddDescribingProperties` | packages/cli/src/load-nodes-and-credentials.ts:480-526 | the one or two describing properties come right after the last callout, the choice of type first |
| `NodeLoading.LoadNodesAndCredentials.FindLastCalloutIndex` | packages/cli/src/load-nodes-and-credentials.ts:187-193 | the result is a callout with none behind it, or -1 if there is none |
| `NodeLoading.LoadNodesAndCredentials.InjectCustomApiCallOptions` | packages/cli/src/load-nodes-and-credentials.ts:258-280 | which arrays are extended in place, up to the first empty one, on which it throws |
| `NodeLoading.WithToolsLoop` | packages/cli/src/load-nodes-and-credentials.ts:312-332 | building the tools one by one over three tables is building each table by itself |
| `Rebuild.RestrictedTwice` | packages/cli/src/load-nodes-and-credentials.ts:642-686 | restricting a credential again changes nothing |
| `Rebuild.CollectAllSame` | packages/cli/src/load-nodes-and-credentials.ts:349-411 | credential objects that an earlier rebuild has restricted in place give the same tables |
| `Rebuild.InjectTwice` | packages/cli/src/load-nodes-and-credentials.ts:265-277 | injecting again changes no array and stops, or not, at the same place |
| `Rebuild.InjectOkIff` | packages/cli/src/load-nodes-and-credentials.ts:270 | injection goes through if and only if no selected array is empty |
| `Rebuild.InjectOkIffGoesThrough` | packages/cli/src/load-nodes-and-credentials.ts:258-280 | for descriptions: it goes through if and only if no `resource` or `operation` array of a latest version with proxy authentication is empty |
| `Rebuild.InjectReaches` | packages/cli/src/load-nodes-and-credentials.ts:258-280 | exactly the arrays that lack the option and come before the first empty one in the order of the targets get it |
| `Rebuild.ReachedIff` | packages/cli/src/load-nodes-and-credentials.ts:258-280 | if none is empty, the arrays reached are those of `resource` and `operation` of latest versions with proxy authentication |
| `Rebuild.ToolOwnsLists` | packages/cli/src/load-nodes-and-credentials.ts:313-320 | a tool's arrays are numbered from its base on, and each is held by one property alone |
| `Rebuild.ExtendedConvert` | packages/cli/src/load-nodes-and-credentials.ts:258-540 | extending a tool is converting the extended description |
| `Rebuild.RunShows` | packages/cli/src/load-nodes-and-credentials.ts:335-415 | a rebuild shows the loaders' descriptions as if there were no tools, and each tool as if derived on its own |
| `Rebuild.RebuildIff` | packages/cli/src/load-nodes-and-credentials.ts:335-420 | a second rebuild gives the same known tables, credentials and outcome always, and the same node table if and only if no usable description holds a non-empty array without the option that injection reaches through some property while it does not extend the tool's copy of it |
| `Rebuild.RebuildSettles` | packages/cli/src/load-nodes-and-credentials.ts:559-565 | the third rebuild gives the same known tables, credentials, node table and outcome as the second |
| `Rebuild.UnsharedRebuild` | packages/cli/src/load-nodes-and-credentials.ts:335-420 | loaders whose descriptions share no options array give the same tables and outcome twice, if no array that is to get the option is empty |
| `Rebuild.SharedListExample` | packages/cli/src/load-nodes-and-credentials.ts:258-320 | a loader with two versions that share their operations: the second rebuild shows another node table than the first |
| `Rebuild.ToolsSupport` | packages/cli/src/load-nodes-and-credentials.ts:325-331 | every credential that supports a usable node supports its tool, and nothing else becomes supported |

## Left out

- Queue mode: `enqueueExecution`, Bull, workers and scaling-mode stops are external systems.
- Webhook registration, licence, crash recovery, push messages, telemetry, logging and streaming responses: no state that the properties speak of. Registering webhooks is one of the things that may fail in `add`.
- Database, clock and file contents are parameters: tables and rows as given, one reading of the clock per place where the source reads it.
- The running of a workflow itself: it appears as its completion, failure, or status change.
- `WorkflowActivation.ActiveWorkflowManager.AddActiveWorkflows`: the method makes the activations of a batch one after the other; `BatchInterleaved` covers their interleaving with each other, not with retries or removals of the same workflows. After a failing read the source clears the in-progress flag while the rest of the batch is still under way, and the method after it.
- `EmitError`, `RemoveWorkflow`: one step each; an `add` by a user or a command is split at its awaits in `LeaderCluster` only, where it begins and ends.
- `ActiveWorkflowManager`: `removeAll`, `removeAllQueuedWorkflowActivations` and `isActive` would only add easy members; trigger nodes, pollers and webhooks of one workflow are one thing in memory, and `Outcome` says how the unseen parts of `add` went.
- `TimerFires`, `WorkflowActivation.ActiveWorkflowManager.RetryFires`: when a timer fires is an event, so delays are compared and not waited for; the 32-bit cap of `setTimeout` is not reached by these delays.
- `ExclusiveRunIff`, `KeyLeadsRunIff`: a key runs out whenever the event says so, and that a check of its holder renews it is not modelled; delivery of published commands is unrestricted (any command, any time, any instance), so loss and order of messages are not modelled apart; a close function and the deletion after it are one turn, and an instance does not switch between single-main and multi-main.
- `ShutdownPass`: `removeAll` of the concurrency service does nothing here, because the service is disabled first in regular mode; the polling of the wait loop is the sequence of events of `WaitEndsIff`.
- `ActiveExecutions`: the concurrency service inside it is the value that `ConcurrencyControl` specifies, and `ConcurrencyQueue` is the in-place form of one queue; response promises are handles into a table; the number of executions of an id in one `add` at a time is not bounded.
- `DeadlineNeverLater`: timestamps and start times are positive, as clock readings are; `ChildNoLaterIff` says what a timestamp of 0 does.
- `CredentialTypes`, `CredentialsOverwrites`: `getByName(...).extends` and the known table are taken to agree; a cyclic hierarchy, on which the source recurses without end, is excluded by `Acyclic`; the order of `for ... in` is the parameter `order`.
- `RepairAgreesIff`: ids are unique in the credentials table, where they are the primary key; a credential entry of a node is identified by its position, and type names that are names of `Object.prototype` members are not modelled.
- `PostProcess`: no post-processors and no `replacements` of tool descriptions; descriptions without `properties` are not modelled; property objects are values, because only their option arrays are changed in place; strings that the code compares with are constructors of their own, and display texts of added properties are dropped.
- `Rebuild.RebuildIff`: a rebuild starts from the objects as the last one left them; a hot reload that resets one loader first brings new objects for that loader, which are another heap.
