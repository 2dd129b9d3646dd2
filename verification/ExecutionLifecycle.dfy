/** The life of executions in one process as a state machine: every call into
    `ActiveExecutions`, every settle handler and every completion is one step, and a
    run is any sequence of steps. */
module ExecutionLifecycle {
  import opened Wrappers
  import Runs
  import opened ConcurrencyControl

  datatype Status = New | Running | Waiting | Success | Errored | Canceled | Crashed | Unknown

  /** A deferred promise. `Rejected` is rejection with `ExecutionCancelledError`,
      the only rejection the source performs. */
  datatype Deferred<+T> = Pending | Resolved(value: T) | Rejected

  function Resolve<T>(d: Deferred<T>, value: T): Deferred<T> {
    if d.Pending? then Resolved(value) else d
  }

  function Reject<T>(d: Deferred<T>): Deferred<T> {
    if d.Pending? then Rejected else d
  }

  /** The part of `IRun` that the lifecycle reads or writes. */
  datatype RunData = RunData(finished: bool, status: Status, payload: int)

  /** The cancellable promise of the engine. */
  datatype WorkflowExecution = Detached | Attached(cancelled: bool)

  type PromiseRef = nat

  /** One `IExecutingWorkflowData` object with the closure that `add` hangs on its
      post-execution promise; `handled` says that this closure has run. */
  datatype Run = Run(
    id: Id, mode: Mode, startedAt: int, status: Status,
    post: Deferred<Option<RunData>>, response: Option<PromiseRef>,
    workflow: WorkflowExecution, handled: bool)

  /** `runs` are all the objects ever made, `active` is the map of the class,
      whose values are references to them. */
  datatype State = State(runs: seq<Run>, active: map<Id, nat>, responses: map<PromiseRef, Deferred<int>>,
                         control: Control)

  ghost predicate WellFormed(s: State) {
    && (forall id :: id in s.active ==> s.active[id] < |s.runs| && s.runs[s.active[id]].id == id)
    && (forall r :: 0 <= r < |s.runs| && s.runs[r].handled ==> !s.runs[r].post.Pending?)
  }

  /** What no operation changes in a run once it exists. */
  ghost predicate SameRun(before: Run, after: Run) {
    && after.id == before.id && after.mode == before.mode && after.startedAt == before.startedAt
    && (!before.post.Pending? ==> after.post == before.post)
    && (before.handled ==> after.handled)
  }

  /** No handler runs and no run is made. */
  ghost predicate SameHandlers(s: State, s': State) {
    && |s'.runs| == |s.runs|
    && forall r :: 0 <= r < |s.runs| ==> s'.runs[r].handled == s.runs[r].handled && s'.runs[r].mode == s.runs[r].mode
  }

  ghost predicate Evolves(s: State, s': State) {
    && WellFormed(s')
    && |s.runs| <= |s'.runs|
    && forall r :: 0 <= r < |s.runs| ==> SameRun(s.runs[r], s'.runs[r])
  }

  /** Run `r` is what the map holds for its id. */
  ghost predicate IsEntry(s: State, r: nat) {
    r < |s.runs| && s.runs[r].id in s.active && s.active[s.runs[r].id] == r
  }

  /** Nothing but entries changes, and the map loses or replaces no entry. */
  ghost predicate OnlyEntries(s: State, s': State)
    requires WellFormed(s)
  {
    && WellFormed(s') && |s'.runs| == |s.runs| && s'.active == s.active
    && forall r: nat :: r < |s.runs| ==>
         (!IsEntry(s, r) ==> s'.runs[r] == s.runs[r]) && s'.runs[r].id == s.runs[r].id
  }

  /** `activeExecutions[id]`, when there is one. */
  function Entry(s: State, id: Id): Run
    requires WellFormed(s) && id in s.active
  {
    s.runs[s.active[id]]
  }

  function SetEntry(s: State, id: Id, run: Run): State
    requires WellFormed(s) && id in s.active
  {
    s.(runs := s.runs[s.active[id] := run])
  }

  function Settle(s: State, ref: Option<PromiseRef>, value: Option<int>): State {
    if ref.None? then s
    else
      var d := if ref.value in s.responses then s.responses[ref.value] else Pending;
      s.(responses := s.responses[ref.value := if value.Some? then Resolve(d, value.value) else Reject(d)])
  }

  // ---------------------------------------------------------------------------
  // The operations of ActiveExecutions
  // ---------------------------------------------------------------------------

  function Throttle(s: State, ticket: Ticket): (s': State)
    requires WellFormed(s)
    ensures Evolves(s, s') && OnlyEntries(s, s')
    ensures SameHandlers(s, s')
  {
    s.(control := ConcurrencyControl.Throttle(s.control, ticket))
  }

  /** The part of `add` after its last `await`, for the `k`th admitted ticket. */
  function Add(s: State, k: nat, now: int): (s': State)
    requires WellFormed(s)
    ensures Evolves(s, s')
  {
    if k >= |s.control.admitted| then s
    else
      var ticket := s.control.admitted[k];
      var resuming := if ticket.id in s.active then Some(Entry(s, ticket.id)) else None;
      var run := Run(ticket.id, ticket.mode, if resuming.Some? then resuming.value.startedAt else now, Running,
                     Pending, if resuming.Some? then resuming.value.response else None, Detached, false);
      s.(runs := s.runs + [run], active := s.active[ticket.id := |s.runs|],
         control := s.control.(admitted := s.control.admitted[..k] + s.control.admitted[k + 1..]))
  }

  /** The handler that `add` attached to the promise of run `r`. */
  function OnSettled(s: State, r: nat): (s': State)
    requires WellFormed(s)
    ensures Evolves(s, s')
  {
    if r >= |s.runs| || s.runs[r].handled || s.runs[r].post.Pending? then s
    else
      var run := s.runs[r];
      var s1 := s.(control := Release(s.control, run.mode));
      if run.status == Waiting then s1.(runs := s.runs[r := run.(handled := true, workflow := Detached)])
      else s1.(runs := s.runs[r := run.(handled := true)], active := s.active - {run.id})
  }

  function Stop(s: State, id: Id): (s': State)
    requires WellFormed(s)
    ensures Evolves(s, s')
    ensures SameHandlers(s, s') && s'.control == s.control
  {
    if id !in s.active then s
    else
      var run := Entry(s, id);
      var s1 := Settle(s, run.response, None);
      if run.status == Waiting then s1.(active := s.active - {id})
      else s1.(runs := s.runs[s.active[id] := run.(
                 workflow := if run.workflow.Attached? then Attached(true) else Detached,
                 post := Reject(run.post))])
  }

  function Finalize(s: State, id: Id, data: Option<RunData>): (s': State)
    requires WellFormed(s)
    ensures Evolves(s, s') && OnlyEntries(s, s')
    ensures SameHandlers(s, s') && s'.control == s.control
  {
    if id !in s.active then s else SetEntry(s, id, Entry(s, id).(post := Resolve(Entry(s, id).post, data)))
  }

  /** `getExecutionOrFail` throws for a missing id, which leaves the state alone. */
  function SetStatus(s: State, id: Id, status: Status): (s': State)
    requires WellFormed(s)
    ensures Evolves(s, s') && OnlyEntries(s, s')
    ensures SameHandlers(s, s') && s'.control == s.control
  {
    if id !in s.active then s else SetEntry(s, id, Entry(s, id).(status := status))
  }

  function AttachWorkflow(s: State, id: Id): (s': State)
    requires WellFormed(s)
    ensures Evolves(s, s') && OnlyEntries(s, s')
    ensures SameHandlers(s, s') && s'.control == s.control
  {
    if id !in s.active then s else SetEntry(s, id, Entry(s, id).(workflow := Attached(false)))
  }

  function AttachResponse(s: State, id: Id, ref: PromiseRef): (s': State)
    requires WellFormed(s)
    ensures Evolves(s, s') && OnlyEntries(s, s')
    ensures SameHandlers(s, s') && s'.control == s.control
  {
    if id !in s.active then s else SetEntry(s, id, Entry(s, id).(response := Some(ref)))
  }

  function ResolveResponse(s: State, id: Id, value: int): (s': State)
    requires WellFormed(s)
    ensures Evolves(s, s') && OnlyEntries(s, s')
    ensures SameHandlers(s, s') && s'.control == s.control
  {
    if id !in s.active then s else Settle(s, Entry(s, id).response, Some(value))
  }

  /** The empty response `{}`. */
  const EMPTY_RESPONSE := 0

  function ResolveExecutionResponse(s: State, id: Id): (s': State)
    requires WellFormed(s)
    ensures Evolves(s, s') && OnlyEntries(s, s')
    ensures SameHandlers(s, s') && s'.control == s.control
  {
    if id in s.active && Entry(s, id).status != Waiting
    then Settle(s, Entry(s, id).response, Some(EMPTY_RESPONSE)) else s
  }

  function RemoveQueued(s: State, mode: Mode, id: Id): (s': State)
    requires WellFormed(s)
    ensures Evolves(s, s') && OnlyEntries(s, s')
    ensures SameHandlers(s, s')
  {
    s.(control := Remove(s.control, mode, id))
  }

  function Disable(s: State): (s': State)
    requires WellFormed(s)
    ensures Evolves(s, s') && OnlyEntries(s, s')
    ensures SameHandlers(s, s')
  {
    s.(control := s.control.(enabled := false))
  }

  /** One turn of the first loop of `shutdown`. */
  function ShutdownVisit(s: State, id: Id, regular: bool, cancelAll: bool): (s': State)
    requires WellFormed(s)
    ensures Evolves(s, s')
    ensures SameHandlers(s, s') && s'.control == s.control
  {
    if id !in s.active then s
    else if Entry(s, id).response.Some? || (regular && cancelAll) then Stop(s, id)
    else if Entry(s, id).status in {Waiting, New} then s.(active := s.active - {id})
    else s
  }

  // ---------------------------------------------------------------------------
  // The runner's callbacks
  // ---------------------------------------------------------------------------

  /** What `processError` looks at in an error. */
  datatype RunError = NotFoundError | CancelledError | OtherError(message: string)

  /** The errors that `processError` takes for an execution that was cancelled. */
  predicate Absorbed(error: RunError) {
    !error.OtherError? || Contains(error.message, "cancelled")
  }

  /** The data that `processError` finalises with. */
  function ErrorData(payload: int): RunData {
    RunData(false, Errored, payload)
  }

  /** The `.then` of the workflow execution. `getStatus` throws when the entry is
      gone, and `processError` drops that error. */
  function Completed(s: State, id: Id, data: RunData, isCanceled: bool): (s': State)
    requires WellFormed(s)
    ensures Evolves(s, s') && OnlyEntries(s, s')
    ensures SameHandlers(s, s') && s'.control == s.control
  {
    if id !in s.active then s
    else
      var finished := if isCanceled then false else data.finished;
      var fullRunData := RunData(finished, Entry(s, id).status, data.payload);
      Finalize(ResolveExecutionResponse(s, id), id, Some(fullRunData))
  }

  /** The `.catch` of the workflow execution, and the `catch` of the guarded section. */
  function Failed(s: State, id: Id, error: RunError, payload: int): (s': State)
    requires WellFormed(s)
    ensures Evolves(s, s') && OnlyEntries(s, s')
    ensures SameHandlers(s, s') && s'.control == s.control
  {
    if Absorbed(error) then s else Finalize(s, id, Some(ErrorData(payload)))
  }

  // ---------------------------------------------------------------------------
  // Steps and runs
  // ---------------------------------------------------------------------------

  datatype Event =
    | EThrottle(ticket: Ticket)
    | EAdd(k: nat, now: int)
    | ESettled(r: nat)
    | EStop(id: Id)
    | EFinalize(id: Id, result: Option<RunData>)
    | ESetStatus(id: Id, status: Status)
    | EAttachWorkflow(id: Id)
    | EAttachResponse(id: Id, ref: PromiseRef)
    | EResolveResponse(id: Id, value: int)
    | ERemoveQueued(mode: Mode, id: Id)
    | ECompleted(id: Id, data: RunData, isCanceled: bool)
    | EFailed(id: Id, error: RunError, payload: int)
    | EDisable
    | EShutdownVisit(id: Id, regular: bool, cancelAll: bool)

  function Apply(s: State, e: Event): (s': State)
    requires WellFormed(s)
    ensures Evolves(s, s')
    ensures !e.EAdd? && !e.ESettled? && !e.EStop? && !e.EShutdownVisit? ==> OnlyEntries(s, s')
    ensures !e.EAdd? && !e.ESettled? ==> SameHandlers(s, s')
    ensures !e.EAdd? && !e.ESettled? && !e.EThrottle? && !e.ERemoveQueued? && !e.EDisable? ==> s'.control == s.control
  {
    match e
    case EThrottle(ticket) => Throttle(s, ticket)
    case EAdd(k, now) => Add(s, k, now)
    case ESettled(r) => OnSettled(s, r)
    case EStop(id) => Stop(s, id)
    case EFinalize(id, result) => Finalize(s, id, result)
    case ESetStatus(id, status) => SetStatus(s, id, status)
    case EAttachWorkflow(id) => AttachWorkflow(s, id)
    case EAttachResponse(id, ref) => AttachResponse(s, id, ref)
    case EResolveResponse(id, value) => ResolveResponse(s, id, value)
    case ERemoveQueued(mode, id) => RemoveQueued(s, mode, id)
    case ECompleted(id, data, isCanceled) => Completed(s, id, data, isCanceled)
    case EFailed(id, error, payload) => Failed(s, id, error, payload)
    case EDisable => Disable(s)
    case EShutdownVisit(id, regular, cancelAll) => ShutdownVisit(s, id, regular, cancelAll)
  }

  /** `Apply` as a function of all states. */
  ghost function Step(s: State, e: Event): State {
    if WellFormed(s) then Apply(s, e) else s
  }

  ghost function Exec(s: State, events: seq<Event>): State
    requires WellFormed(s)
  {
    Runs.Exec(Step, s, events)
  }

  lemma {:induction false} ExecWellFormed(s: State, events: seq<Event>)
    requires WellFormed(s)
    ensures WellFormed(Exec(s, events)) && |s.runs| <= |Exec(s, events).runs|
    decreases |events|
  {
    if events != [] {
      ExecWellFormed(Apply(s, events[0]), events[1..]);
    }
  }
}
