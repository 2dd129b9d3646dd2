/** Deadlines: the hard stop that the runner arms for an execution, and the soft
    deadline that nested sub-workflow calls hand down. Times are in milliseconds,
    settings in seconds. */
module WorkflowTimeouts {
  import opened Wrappers

  function Min(a: int, b: int): int {
    if a <= b then a else b
  }

  function Max(a: int, b: int): int {
    if a >= b then a else b
  }

  /** The workflow's own setting or the default, capped when positive. */
  function EffectiveLimit(setting: Option<int>, default: int, maximum: int): int {
    var limit := if setting.Some? then setting.value else default;
    if limit > 0 then Min(limit, maximum) else limit
  }

  /** What `runMainProcess` does about the hard limit. */
  datatype HardStop = NoStop | StopNow | StopIn(delay: int)

  /** When the execution is stopped, for a runner that looks at its clock at `now`. */
  function StopsAt(stop: HardStop, now: int): Option<int> {
    match stop
    case NoStop => None
    case StopNow => Some(now)
    case StopIn(delay) => Some(now + delay)
  }

  /** The timeout part of `runMainProcess`. The hard stop falls on `startedAt` plus the
      limit, whenever the round starts and however often the execution has waited, and
      on the spot when that time has passed. `earlier` and `now` are its two readings
      of the clock; `soft` is the deadline put into the additional data. */
  method ArmTimeouts(setting: Option<int>, default: int, maximum: int, startedAt: Option<int>, earlier: int, now: int)
    returns (soft: Option<int>, hard: HardStop)
    ensures var limit := EffectiveLimit(setting, default, maximum);
            if limit <= 0 then soft == None && hard == NoStop
            else
              && soft == Some(earlier + limit * 1000)
              && StopsAt(hard, now) == Some(Max(now, (if startedAt.Some? then startedAt.value else now) + limit * 1000))
              && (hard == StopNow <==> startedAt.Some? && startedAt.value + limit * 1000 <= now)
              && (hard.StopIn? ==> hard.delay > 0)
  {
    soft, hard := None, NoStop;
    var workflowTimeout := default;
    if setting.Some? {
      workflowTimeout := setting.value;
    }
    if workflowTimeout > 0 {
      workflowTimeout := Min(workflowTimeout, maximum);
    }
    if workflowTimeout > 0 {
      soft := Some(earlier + workflowTimeout * 1000);
    }
    if workflowTimeout > 0 {
      var timeout := Min(workflowTimeout, maximum) * 1000;
      if startedAt.Some? {
        timeout := Max(timeout - (now - startedAt.value), 0);
      }
      if timeout == 0 {
        hard := StopNow;
      } else {
        hard := StopIn(timeout);
      }
    }
  }

  // ---------------------------------------------------------------------------
  // Sub-workflows
  // ---------------------------------------------------------------------------

  const MAX_SAFE_INTEGER := 9007199254740991

  /** A nested call: the sub-workflow's own setting and the time it starts. */
  datatype Call = Call(setting: Option<int>, startTime: int)

  predicate HasLimit(call: Call) {
    call.setting.Some? && call.setting.value > 0
  }

  /** When the call's own limit runs out. */
  function OwnLimit(call: Call): int {
    call.startTime + (if call.setting.Some? then call.setting.value else 0) * 1000
  }

  /** `executionTimeoutTimestamp || Number.MAX_SAFE_INTEGER` */
  function OrMaximum(timestamp: Option<int>): int {
    if timestamp.None? || timestamp.value == 0 then MAX_SAFE_INTEGER else timestamp.value
  }

  /** The timestamp that `startExecution` gives to the called workflow: the caller's, or
      the call's own limit if that comes earlier or the caller has none. */
  method SubworkflowTimeout(parent: Option<int>, call: Call) returns (timestamp: Option<int>)
    ensures timestamp.None? <==> parent.None? && !HasLimit(call)
    ensures parent.Some? && parent.value != 0 ==> NoLater(timestamp, parent)
    ensures HasLimit(call) ==> NoLater(timestamp, Some(OwnLimit(call)))
    ensures timestamp in {parent, Some(OwnLimit(call)), Some(MAX_SAFE_INTEGER)}
    ensures timestamp == ChildDeadline(parent, call)
  {
    timestamp := parent;
    if call.setting.Some? && call.setting.value > 0 {
      timestamp := Some(Min(OrMaximum(parent), call.startTime + call.setting.value * 1000));
    }
  }

  function ChildDeadline(parent: Option<int>, call: Call): Option<int> {
    if HasLimit(call) then Some(Min(OrMaximum(parent), call.startTime + call.setting.value * 1000)) else parent
  }

  /** The timestamps along a chain of calls, the caller's first. */
  function Deadlines(root: Option<int>, calls: seq<Call>): seq<Option<int>>
    decreases |calls|
  {
    if calls == [] then [root] else [root] + Deadlines(ChildDeadline(root, calls[0]), calls[1..])
  }

  /** `a` is no later than `b`, where no timestamp is later than every timestamp. */
  predicate NoLater(a: Option<int>, b: Option<int>) {
    b.None? || (a.Some? && a.value <= b.value)
  }

  lemma {:induction false} DeadlinesShape(root: Option<int>, calls: seq<Call>, i: nat)
    requires i <= |calls|
    ensures |Deadlines(root, calls)| == |calls| + 1
    ensures Deadlines(root, calls)[0] == root
    ensures i > 0 ==> Deadlines(root, calls)[i] == ChildDeadline(Deadlines(root, calls)[i - 1], calls[i - 1])
    decreases |calls|
  {
    if calls != [] {
      DeadlinesShape(ChildDeadline(root, calls[0]), calls[1..], if i > 0 then i - 1 else 0);
    }
  }

  /** Along any chain: a deadline is never later than any deadline further up, nor
      than the call's own limit, and is missing only if nobody on the way set one. */
  lemma {:induction false} DeadlineNeverLater(root: Option<int>, calls: seq<Call>, i: nat, j: nat)
    requires i <= j <= |calls|
    requires root.Some? ==> root.value > 0
    requires forall k :: 0 <= k < |calls| ==> calls[k].startTime > 0
    ensures |Deadlines(root, calls)| == |calls| + 1
    ensures var d := Deadlines(root, calls);
            && NoLater(d[j], d[i])
            && (d[j].Some? ==> d[j].value > 0)
            && (j > 0 && HasLimit(calls[j - 1]) ==> NoLater(d[j], Some(OwnLimit(calls[j - 1]))))
            && (d[j].None? <==> d[i].None? && forall k :: i <= k < j ==> !HasLimit(calls[k]))
    decreases j
  {
    DeadlinesShape(root, calls, j);
    DeadlinesShape(root, calls, i);
    if j > i {
      DeadlineNeverLater(root, calls, i, j - 1);
    } else if j > 0 {
      DeadlineNeverLater(root, calls, i - 1, j - 1);
    }
  }

  /** One call keeps to its caller's timestamp exactly when that is not the falsy 0
      or the call has no limit of its own. */
  lemma ChildNoLaterIff(parent: Option<int>, call: Call)
    requires call.startTime > 0
    ensures NoLater(ChildDeadline(parent, call), parent) <==> !(parent == Some(0) && HasLimit(call))
  {
  }
}
