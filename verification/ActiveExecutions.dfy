/** `ActiveExecutions` as the source keeps it: a map of entry objects that its methods,
    and the settle handlers of the entries, update in place. Every method is proved
    to be the step of the same name of the execution lifecycle. */
module ActiveExecutions {
  import opened Wrappers
  import opened ConcurrencyControl
  import opened ExecutionLifecycle
  import Shutdown

  /** `IExecutingWorkflowData` */
  class ExecutingWorkflowData {
    ghost const index: nat
    const executionId: Id
    const executionMode: Mode
    const startedAt: int
    var status: Status
    var postExecutePromise: Deferred<Option<RunData>>
    var responsePromise: Option<PromiseRef>
    var workflowExecution: WorkflowExecution
    ghost var handled: bool

    constructor (ghost index: nat, executionId: Id, mode: Mode, startedAt: int, response: Option<PromiseRef>)
      ensures this.index == index
      ensures Data() == Run(executionId, mode, startedAt, Running, Pending, response, Detached, false)
    {
      this.index := index;
      this.executionId, this.executionMode, this.startedAt := executionId, mode, startedAt;
      status, postExecutePromise, responsePromise, workflowExecution := Running, Pending, response, Detached;
      handled := false;
    }

    ghost function Data(): Run
      reads this
    {
      Run(executionId, executionMode, startedAt, status, postExecutePromise, responsePromise, workflowExecution,
          handled)
    }
  }

  ghost function Snapshot(runs: seq<ExecutingWorkflowData>): (r: seq<Run>)
    reads runs
    ensures |r| == |runs|
    ensures forall i :: 0 <= i < |runs| ==> r[i] == runs[i].Data()
  {
    seq(|runs|, i requires 0 <= i < |runs| reads runs => runs[i].Data())
  }

  /** The map with its references replaced by the numbers of the entries. */
  ghost function References(m: map<Id, ExecutingWorkflowData>): (r: map<Id, nat>)
    ensures r.Keys == m.Keys
    ensures forall id :: id in m ==> r[id] == m[id].index
  {
    map id | id in m :: m[id].index
  }

  lemma ReferencesUpdate(m: map<Id, ExecutingWorkflowData>, id: Id, e: ExecutingWorkflowData)
    ensures References(m[id := e]) == References(m)[id := e.index]
  {
  }

  lemma ReferencesRemove(m: map<Id, ExecutingWorkflowData>, id: Id)
    ensures References(m - {id}) == References(m) - {id}
  {
  }

  // A state is the result of an operation when it agrees with it field by field.

  lemma AddResult(s: State, k: nat, now: int, startedAt: int, response: Option<PromiseRef>, s': State)
    requires WellFormed(s) && k < |s.control.admitted|
    requires var id := s.control.admitted[k].id;
             if id in s.active then startedAt == Entry(s, id).startedAt && response == Entry(s, id).response
             else startedAt == now && response == None
    requires var Ticket(id, mode) := s.control.admitted[k];
             && s'.runs == s.runs + [Run(id, mode, startedAt, Running, Pending, response, Detached, false)]
             && s'.active == s.active[id := |s.runs|]
    requires s'.responses == s.responses
    requires s'.control == s.control.(admitted := s.control.admitted[..k] + s.control.admitted[k + 1..])
    ensures s' == ExecutionLifecycle.Add(s, k, now)
  {
  }

  lemma SettledResult(s: State, r: nat, s': State)
    requires WellFormed(s) && r < |s.runs| && !s.runs[r].handled && !s.runs[r].post.Pending?
    requires s'.runs == s.runs[r := if s.runs[r].status == Waiting
                                    then s.runs[r].(handled := true, workflow := Detached)
                                    else s.runs[r].(handled := true)]
    requires s'.active == if s.runs[r].status == Waiting then s.active else s.active - {s.runs[r].id}
    requires s'.responses == s.responses && s'.control == Release(s.control, s.runs[r].mode)
    ensures s' == ExecutionLifecycle.OnSettled(s, r)
  {
  }

  lemma StopResult(s: State, id: Id, s': State)
    requires WellFormed(s) && id in s.active
    requires var run := Entry(s, id);
             && s'.runs == (if run.status == Waiting then s.runs
                  else s.runs[s.active[id] := run.(
                         workflow := if run.workflow.Attached? then Attached(true) else Detached,
                           post := Reject(run.post))])
             && s'.active == (if run.status == Waiting then s.active - {id} else s.active)
             && s'.responses == Settle(s, run.response, None).responses
    requires s'.control == s.control
    ensures s' == Stop(s, id)
  {
  }

  class ActiveExecutions {
    var activeExecutions: map<Id, ExecutingWorkflowData>
    var responses: map<PromiseRef, Deferred<int>>
    var control: Control
    /** Every entry ever made, in or out of the map. */
    ghost var runs: seq<ExecutingWorkflowData>

    ghost predicate Valid()
      reads this, runs
    {
      && (forall i :: 0 <= i < |runs| ==> runs[i].index == i)
      && (forall id :: id in activeExecutions ==>
            var e := activeExecutions[id]; e.index < |runs| && runs[e.index] == e && e.executionId == id)
      && (forall i :: 0 <= i < |runs| && runs[i].handled ==> !runs[i].postExecutePromise.Pending?)
    }

    ghost function View(): (s: State)
      requires Valid()
      reads this, runs
      ensures WellFormed(s)
    {
      State(Snapshot(runs), References(activeExecutions), responses, control)
    }

    constructor (control: Control)
      ensures Valid() && View() == State([], map[], map[], control)
    {
      activeExecutions := map[];
      responses := map[];
      this.control := control;
      runs := [];
    }

    /** The part of `add` after its last `await`, for the `k`th admitted ticket. */
    method Add(k: nat, now: int) returns (executionId: Id)
      requires Valid() && k < |control.admitted|
      modifies this
      ensures Valid() && View() == ExecutionLifecycle.Add(old(View()), k, now)
      ensures executionId == old(control.admitted[k]).id
      ensures |runs| == |old(runs)| + 1 && runs[..|old(runs)|] == old(runs) && fresh(runs[|old(runs)|])
    {
      ghost var s := View();
      var ticket := control.admitted[k];
      executionId := ticket.id;
      var startedAt, response := now, None;
      if executionId in activeExecutions {
        var resumingExecution := activeExecutions[executionId];
        startedAt, response := resumingExecution.startedAt, resumingExecution.responsePromise;
      }
      assert if executionId in s.active
             then startedAt == Entry(s, executionId).startedAt && response == Entry(s, executionId).response
             else startedAt == now && response == None;
      StoreEntry(executionId, ticket.mode, startedAt, response);
      control := control.(admitted := control.admitted[..k] + control.admitted[k + 1..]);
      AddResult(s, k, now, startedAt, response, View());
    }

    /** Makes the entry and puts it into the map, in place of any earlier one. */
    method StoreEntry(executionId: Id, mode: Mode, startedAt: int, response: Option<PromiseRef>)
      requires Valid()
      modifies this`runs, this`activeExecutions
      ensures |runs| == |old(runs)| + 1 && runs[..|old(runs)|] == old(runs) && fresh(runs[|old(runs)|])
      ensures Valid()
      ensures var run := Run(executionId, mode, startedAt, Running, Pending, response, Detached, false);
              View() == old(View()).(runs := old(View()).runs + [run],
                                     active := old(View()).active[executionId := |old(runs)|])
    {
      ghost var before := Snapshot(runs);
      var execution := new ExecutingWorkflowData(|runs|, executionId, mode, startedAt, response);
      runs := runs + [execution];
      ReferencesUpdate(activeExecutions, executionId, execution);
      activeExecutions := activeExecutions[executionId := execution];
      assert Snapshot(runs) == before + [execution.Data()];
    }

    /** The closure that `add` attaches to the promise of `execution`. */
    method OnSettled(execution: ExecutingWorkflowData)
      requires Valid() && execution.index < |runs| && runs[execution.index] == execution
      requires !execution.handled && !execution.postExecutePromise.Pending?
      modifies this, execution
      ensures runs == old(runs)
      ensures Valid() && View() == ExecutionLifecycle.OnSettled(old(View()), execution.index)
    {
      ghost var s := View();
      control := Release(control, execution.executionMode);
      execution.handled := true;
      if execution.status == Waiting {
        execution.workflowExecution := Detached;
      } else {
        ReferencesRemove(activeExecutions, execution.executionId);
        activeExecutions := activeExecutions - {execution.executionId};
      }
      assert Snapshot(runs) == s.runs[execution.index := execution.Data()];
      SettledResult(s, execution.index, View());
    }

    /** Resolves (`Some`) or rejects (`None`) a response promise, if there is one. */
    method SettleResponse(ref: Option<PromiseRef>, value: Option<int>)
      requires Valid()
      modifies this`responses
      ensures Valid() && View() == Settle(old(View()), ref, value)
    {
      ghost var before := Snapshot(runs);
      if ref.Some? {
        var d := if ref.value in responses then responses[ref.value] else Pending;
        responses := responses[ref.value := if value.Some? then Resolve(d, value.value) else Reject(d)];
      }
      assert Snapshot(runs) == before;
    }

    /** `delete this.activeExecutions[executionId]` */
    method RemoveEntry(executionId: Id)
      requires Valid()
      modifies this`activeExecutions
      ensures Valid() && View() == old(View()).(active := old(View()).active - {executionId})
      ensures activeExecutions == old(activeExecutions) - {executionId}
    {
      ReferencesRemove(activeExecutions, executionId);
      activeExecutions := activeExecutions - {executionId};
    }

    method StopExecution(executionId: Id)
      requires Valid()
      modifies this, runs
      ensures runs == old(runs)
      ensures Valid() && View() == Stop(old(View()), executionId)
    {
      if executionId !in activeExecutions {
        return;
      }
      ghost var s := View();
      var execution := activeExecutions[executionId];
      SettleResponse(execution.responsePromise, None);
      if execution.status == Waiting {
        RemoveEntry(executionId);
      } else {
        CancelEntry(execution);
      }
      StopResult(s, executionId, View());
    }

    /** `workflowExecution?.cancel()` and the rejection of the promise. */
    method CancelEntry(execution: ExecutingWorkflowData)
      requires Valid() && execution.index < |runs| && runs[execution.index] == execution
      modifies execution
      ensures Valid() && View() == old(View()).(runs := old(View()).runs[execution.index :=
                var run := old(execution.Data());
                run.(workflow := if run.workflow.Attached? then Attached(true) else Detached,
                     post := Reject(run.post))])
    {
      ghost var before := Snapshot(runs);
      if execution.workflowExecution.Attached? {
        execution.workflowExecution := Attached(true);
      }
      execution.postExecutePromise := Reject(execution.postExecutePromise);
      assert Snapshot(runs) == before[execution.index := execution.Data()];
    }

    method FinalizeExecution(executionId: Id, fullRunData: Option<RunData>)
      requires Valid()
      modifies this, runs
      ensures runs == old(runs)
      ensures Valid() && View() == Finalize(old(View()), executionId, fullRunData)
    {
      if executionId !in activeExecutions {
        return;
      }
      ghost var before := Snapshot(runs);
      var execution := activeExecutions[executionId];
      execution.postExecutePromise := Resolve(execution.postExecutePromise, fullRunData);
      assert Snapshot(runs) == before[execution.index := execution.Data()];
    }

    /** `found` is false where the source throws `ExecutionNotFoundError`. */
    method SetStatus(executionId: Id, status: Status) returns (found: bool)
      requires Valid()
      modifies this, runs
      ensures runs == old(runs) && (found <==> executionId in old(activeExecutions))
      ensures Valid() && View() == ExecutionLifecycle.SetStatus(old(View()), executionId, status)
    {
      found := executionId in activeExecutions;
      if found {
        ghost var before := Snapshot(runs);
        var execution := activeExecutions[executionId];
        execution.status := status;
        assert Snapshot(runs) == before[execution.index := execution.Data()];
      }
    }

    method AttachWorkflowExecution(executionId: Id) returns (found: bool)
      requires Valid()
      modifies this, runs
      ensures runs == old(runs) && (found <==> executionId in old(activeExecutions))
      ensures Valid() && View() == AttachWorkflow(old(View()), executionId)
    {
      found := executionId in activeExecutions;
      if found {
        ghost var before := Snapshot(runs);
        var execution := activeExecutions[executionId];
        execution.workflowExecution := Attached(false);
        assert Snapshot(runs) == before[execution.index := execution.Data()];
      }
    }

    method AttachResponsePromise(executionId: Id, ref: PromiseRef) returns (found: bool)
      requires Valid()
      modifies this, runs
      ensures runs == old(runs) && (found <==> executionId in old(activeExecutions))
      ensures Valid() && View() == AttachResponse(old(View()), executionId, ref)
    {
      found := executionId in activeExecutions;
      if found {
        ghost var before := Snapshot(runs);
        var execution := activeExecutions[executionId];
        execution.responsePromise := Some(ref);
        assert Snapshot(runs) == before[execution.index := execution.Data()];
      }
    }

    method ResolveExecutionResponsePromise(executionId: Id)
      requires Valid()
      modifies this`responses
      ensures runs == old(runs)
      ensures Valid() && View() == ResolveExecutionResponse(old(View()), executionId)
    {
      if executionId in activeExecutions {
        var execution := activeExecutions[executionId];
        if execution.status != Waiting {
          SettleResponse(execution.responsePromise, Some(EMPTY_RESPONSE));
        }
      }
    }

    /** The `.then` that the runner hangs on the workflow execution. */
    method WorkflowCompleted(executionId: Id, data: RunData, isCanceled: bool)
      requires Valid()
      modifies this, runs
      ensures runs == old(runs)
      ensures Valid() && View() == Completed(old(View()), executionId, data, isCanceled)
    {
      if executionId !in activeExecutions {
        return;
      }
      var fullRunData := data;
      if isCanceled {
        fullRunData := fullRunData.(finished := false);
      }
      fullRunData := fullRunData.(status := activeExecutions[executionId].status);
      ResolveExecutionResponsePromise(executionId);
      FinalizeExecution(executionId, Some(fullRunData));
    }

    /** `processError` in regular mode. */
    method ProcessError(error: RunError, executionId: Id, payload: int)
      requires Valid()
      modifies this, runs
      ensures runs == old(runs)
      ensures Valid() && View() == Failed(old(View()), executionId, error, payload)
    {
      if Absorbed(error) {
        return;
      }
      FinalizeExecution(executionId, Some(ErrorData(payload)));
    }

    /** One turn of the first loop of `shutdown`; `stopped` is whether the id joins
        `toCancel`. The lookup has no fallback: the entry must be there. */
    method VisitForShutdown(executionId: Id, isRegularMode: bool, cancelAll: bool) returns (stopped: bool)
      requires Valid() && executionId in activeExecutions
      modifies this, runs
      ensures runs == old(runs)
      ensures Valid() && View() == ShutdownVisit(old(View()), executionId, isRegularMode, cancelAll)
      ensures stopped <==> Shutdown.Selected(Entry(old(View()), executionId), isRegularMode, cancelAll)
    {
      var execution := activeExecutions[executionId];
      stopped := execution.responsePromise.Some? || (isRegularMode && cancelAll);
      if stopped {
        StopExecution(executionId);
      } else if execution.status == Waiting || execution.status == New {
        RemoveEntry(executionId);
      }
    }

    /** The first pass of `shutdown`. `executionIds` are the keys of the map when it
        starts. */
    method ShutdownPass(executionIds: seq<Id>, isRegularMode: bool, cancelAll: bool) returns (toCancel: seq<Id>)
      requires Valid() && Shutdown.Distinct(executionIds)
      requires Shutdown.Present(View(), executionIds) && forall id :: id in activeExecutions ==> id in executionIds
      modifies this, runs
      ensures runs == old(runs) && Valid()
      ensures var start := if isRegularMode then Disable(old(View())) else old(View());
              && View() == Shutdown.VisitAll(start, executionIds, isRegularMode, cancelAll)
              && toCancel == Shutdown.ToCancel(start, executionIds, isRegularMode, cancelAll)
    {
      if isRegularMode {
        DisableControl();
      }
      toCancel := VisitEach(executionIds, isRegularMode, cancelAll);
    }

    /** `concurrencyControl.disable()` */
    method DisableControl()
      requires Valid()
      modifies this`control
      ensures Valid() && View() == Disable(old(View()))
    {
      control := control.(enabled := false);
    }

    method VisitEach(executionIds: seq<Id>, isRegularMode: bool, cancelAll: bool) returns (toCancel: seq<Id>)
      requires Valid() && Shutdown.Distinct(executionIds) && Shutdown.Present(View(), executionIds)
      modifies this, runs
      ensures runs == old(runs) && Valid()
      ensures View() == Shutdown.VisitAll(old(View()), executionIds, isRegularMode, cancelAll)
      ensures toCancel == Shutdown.ToCancel(old(View()), executionIds, isRegularMode, cancelAll)
    {
      ghost var start, rest := View(), executionIds;
      PassStarts(executionIds, isRegularMode, cancelAll);
      toCancel := [];
      var i := 0;
      while i < |executionIds|
        invariant 0 <= i <= |executionIds| && rest == executionIds[i..]
        invariant runs == old(runs)
        invariant Passing(start, executionIds, rest, toCancel, isRegularMode, cancelAll)
      {
        toCancel := VisitNext(executionIds[i], isRegularMode, cancelAll, toCancel, start, executionIds, rest);
        rest := rest[1..];
        i := i + 1;
      }
      PassEnds(start, executionIds, toCancel, isRegularMode, cancelAll);
    }

    /** The pass over `order` from `start` has come to `rest`. */
    ghost predicate Passing(start: State, order: seq<Id>, rest: seq<Id>, done: seq<Id>, regular: bool, cancelAll: bool)
      reads this, runs
    {
      Valid() && WellFormed(start) && Shutdown.Progress(start, order, View(), rest, done, regular, cancelAll)
    }

    lemma PassStarts(order: seq<Id>, regular: bool, cancelAll: bool)
      requires Valid() && Shutdown.Distinct(order) && Shutdown.Present(View(), order)
      ensures Passing(View(), order, order, [], regular, cancelAll)
    {
      Shutdown.ProgressStarts(View(), order, regular, cancelAll);
    }

    lemma PassEnds(start: State, order: seq<Id>, done: seq<Id>, regular: bool, cancelAll: bool)
      requires Passing(start, order, [], done, regular, cancelAll)
      ensures Valid() && WellFormed(start) && View() == Shutdown.VisitAll(start, order, regular, cancelAll)
      ensures done == Shutdown.ToCancel(start, order, regular, cancelAll)
    {
      Shutdown.ProgressEnds(start, order, View(), done, regular, cancelAll);
    }

    /** The body of the loop, with `rest` still to be visited. */
    method VisitNext(executionId: Id, isRegularMode: bool, cancelAll: bool, done: seq<Id>,
                     ghost start: State, ghost order: seq<Id>, ghost rest: seq<Id>)
      returns (toCancel: seq<Id>)
      requires rest != [] && rest[0] == executionId
      requires Passing(start, order, rest, done, isRegularMode, cancelAll)
      modifies this, runs
      ensures runs == old(runs)
      ensures Passing(start, order, rest[1..], toCancel, isRegularMode, cancelAll)
    {
      var stopped := VisitForShutdown(executionId, isRegularMode, cancelAll);
      Shutdown.ProgressStep(start, order, old(View()), rest, done, isRegularMode, cancelAll, View(), stopped);
      toCancel := if stopped then done + [executionId] else done;
    }
  }
}
