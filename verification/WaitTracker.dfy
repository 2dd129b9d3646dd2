/** The tracker of waiting executions: a table of entries beside the timers they armed,
    when the two stay in step, and what happens to an execution when they do not. */
module WaitTracker {
  import opened Wrappers
  import Runs

  type ExecutionId = string
  type TimerId = nat

  /** A row of the poll: an execution whose `waitTill` is near. */
  datatype Row = Row(id: ExecutionId, waitTill: int)

  /** An armed `setTimeout` for the start of an execution. */
  datatype Timer = Timer(id: ExecutionId, armedAt: int, delay: int)

  /** `waiting` are the entries, each holding its timer; `tracking` says that the main
      timer was ever set; `starts` are the executions that were started, in order. */
  datatype Tracker = Tracker(waiting: map<ExecutionId, TimerId>, timers: map<TimerId, Timer>, nextTimer: TimerId,
                             tracking: bool, starts: seq<ExecutionId>)

  // ---------------------------------------------------------------------------
  // Steps
  // ---------------------------------------------------------------------------

  function Track(t: Tracker, row: Row, now: int): Tracker {
    if row.id in t.waiting then t
    else t.(waiting := t.waiting[row.id := t.nextTimer],
            timers := t.timers[t.nextTimer := Timer(row.id, now, row.waitTill - now)],
            nextTimer := t.nextTimer + 1)
  }

  /** A poll whose query returned `rows`; another poll may have run since the query. */
  function Poll(t: Tracker, rows: seq<Row>, now: int): Tracker
    decreases |rows|
  {
    if rows == [] then t else Poll(Track(t, rows[0], now), rows[1..], now)
  }

  function StopExecution(t: Tracker, id: ExecutionId): Tracker {
    if id !in t.waiting then t
    else t.(timers := t.timers - {t.waiting[id]}, waiting := t.waiting - {id})
  }

  /** The part of `startExecution` that concerns the tracker. */
  function StartExecution(t: Tracker, id: ExecutionId): Tracker {
    t.(waiting := t.waiting - {id}, starts := t.starts + [id])
  }

  function Fire(t: Tracker, timer: TimerId): Tracker {
    if timer !in t.timers then t
    else StartExecution(t.(timers := t.timers - {timer}), t.timers[timer].id)
  }

  function StartTracking(t: Tracker): Tracker {
    t.(tracking := true)
  }

  function StopTracking(t: Tracker): Tracker {
    if !t.tracking then t else t.(timers := t.timers - t.waiting.Values)
  }

  class WaitTracker {
    var waitingExecutions: map<ExecutionId, TimerId>
    var mainTimer: bool
    /** The runtime's armed timers, and the next handle it gives out. */
    var timers: map<TimerId, Timer>
    var nextTimer: TimerId
    ghost var starts: seq<ExecutionId>

    ghost function View(): Tracker
      reads this
    {
      Tracker(waitingExecutions, timers, nextTimer, mainTimer, starts)
    }

    constructor ()
      ensures View() == Tracker(map[], map[], 0, false, [])
    {
      waitingExecutions, mainTimer, timers, nextTimer, starts := map[], false, map[], 0, [];
    }

    /** Sets the main timer; the polls that it causes are steps of their own. */
    method Track()
      modifies this
      ensures View() == StartTracking(old(View()))
    {
      mainTimer := true;
    }

    method GetWaitingExecutions(executions: seq<Row>, now: int)
      modifies this
      ensures View() == Poll(old(View()), executions, now)
    {
      var j := 0;
      while j < |executions|
        invariant 0 <= j <= |executions|
        invariant Poll(View(), executions[j..], now) == Poll(old(View()), executions, now)
      {
        assert executions[j..][0] == executions[j] && executions[j..][1..] == executions[j + 1..];
        var id := executions[j].id;
        if id !in waitingExecutions {
          var triggerTime := executions[j].waitTill - now;
          timers := timers[nextTimer := Timer(id, now, triggerTime)];
          waitingExecutions := waitingExecutions[id := nextTimer];
          nextTimer := nextTimer + 1;
        }
        j := j + 1;
      }
    }

    method Stop(id: ExecutionId)
      modifies this
      ensures View() == StopExecution(old(View()), id)
    {
      if id !in waitingExecutions {
        return;
      }
      timers := timers - {waitingExecutions[id]};
      waitingExecutions := waitingExecutions - {id};
    }

    method Start(id: ExecutionId)
      modifies this
      ensures View() == StartExecution(old(View()), id)
    {
      waitingExecutions := waitingExecutions - {id};
      starts := starts + [id];
    }

    /** The runtime fires an armed timer. */
    method TimerFires(timer: TimerId)
      requires timer in timers
      modifies this
      ensures View() == Fire(old(View()), timer)
    {
      var id := timers[timer].id;
      timers := timers - {timer};
      Start(id);
    }

    /** `keys` are the entries in the order of `Object.keys`. */
    method Untrack(keys: seq<ExecutionId>)
      requires forall id :: id in keys <==> id in waitingExecutions
      modifies this
      ensures View() == StopTracking(old(View()))
    {
      if !mainTimer {
        return;
      }
      var j := 0;
      while j < |keys|
        invariant 0 <= j <= |keys|
        invariant waitingExecutions == old(waitingExecutions) && mainTimer
        invariant View() == old(View()).(timers := timers)
        invariant timers == old(timers) - (set k | 0 <= k < j :: waitingExecutions[keys[k]])
      {
        timers := timers - {waitingExecutions[keys[j]]};
        j := j + 1;
      }
      assert (set k | 0 <= k < |keys| :: waitingExecutions[keys[k]]) == waitingExecutions.Values;
    }
  }

  // ---------------------------------------------------------------------------
  // Runs
  // ---------------------------------------------------------------------------

  datatype Event =
    | EPoll(rows: seq<Row>, now: int)
    | EFire(timer: TimerId)
    | EStop(id: ExecutionId)
    /** A finished child resumes its parent, whether or not the parent is tracked. */
    | EResume(id: ExecutionId)
    | EStartTracking
    | EStopTracking

  function Apply(t: Tracker, e: Event): Tracker {
    match e
    case EPoll(rows, now) => Poll(t, rows, now)
    case EFire(timer) => Fire(t, timer)
    case EStop(id) => StopExecution(t, id)
    case EResume(id) => StartExecution(t, id)
    case EStartTracking => StartTracking(t)
    case EStopTracking => StopTracking(t)
  }

  function Exec(t: Tracker, events: seq<Event>): Tracker {
    Runs.Exec(Apply, t, events)
  }

  // ---------------------------------------------------------------------------
  // Entries and timers in one-to-one correspondence
  // ---------------------------------------------------------------------------

  /** Handles are never given out twice. */
  ghost predicate Fresh(t: Tracker) {
    && (forall h :: h in t.timers ==> h < t.nextTimer)
    && (forall id :: id in t.waiting ==> t.waiting[id] < t.nextTimer)
    && (forall id, id' :: id in t.waiting && id' in t.waiting && t.waiting[id] == t.waiting[id'] ==> id == id')
    && (forall id :: id in t.waiting && t.waiting[id] in t.timers ==> t.timers[t.waiting[id]].id == id)
  }

  predicate Armed(t: Tracker, id: ExecutionId) {
    id in t.waiting && t.waiting[id] in t.timers
  }

  /** Every entry's timer is armed, and every armed timer is the one of its entry. */
  ghost predicate Linked(t: Tracker) {
    && (forall id :: id in t.waiting ==> Armed(t, id))
    && (forall h :: h in t.timers ==> t.timers[h].id in t.waiting && t.waiting[t.timers[h].id] == h)
  }

  ghost predicate InStep(t: Tracker) {
    Fresh(t) && Linked(t)
  }

  const INITIAL := Tracker(map[], map[], 0, false, [])

  lemma InitialInStep()
    ensures InStep(INITIAL)
  {
  }

  lemma PollOne(t: Tracker, row: Row, now: int)
    ensures Poll(t, [row], now) == Track(t, row, now)
  {
    assert [row][1..] == [];
    assert Poll(Track(t, row, now), [], now) == Track(t, row, now);
  }

  lemma {:induction false} PollFresh(t: Tracker, rows: seq<Row>, now: int)
    requires Fresh(t)
    ensures Fresh(Poll(t, rows, now))
    decreases |rows|
  {
    if rows != [] {
      PollFresh(Track(t, rows[0], now), rows[1..], now);
    }
  }

  lemma FreshStep(t: Tracker, e: Event)
    requires Fresh(t)
    ensures Fresh(Apply(t, e))
  {
    if e.EPoll? {
      PollFresh(t, e.rows, e.now);
    }
  }

  lemma {:induction false} PollLinked(t: Tracker, rows: seq<Row>, now: int)
    requires Fresh(t) && Linked(t)
    ensures Linked(Poll(t, rows, now))
    decreases |rows|
  {
    if rows != [] {
      PollFresh(t, [rows[0]], now);
      PollOne(t, rows[0], now);
      PollLinked(Track(t, rows[0], now), rows[1..], now);
    }
  }

  /** The step leaves an armed timer without its entry, or entries without their timers. */
  predicate Unlinks(t: Tracker, e: Event) {
    match e
    case EResume(id) => id in t.waiting
    case EStopTracking => t.tracking && t.waiting != map[]
    case _ => false
  }

  lemma LinkedStepIff(t: Tracker, e: Event)
    requires Fresh(t) && Linked(t)
    ensures Linked(Apply(t, e)) <==> !Unlinks(t, e)
  {
    match e
    case EPoll(rows, now) => PollLinked(t, rows, now);
    case EFire(_) =>
    case EStop(_) =>
    case EResume(id) =>
      if id in t.waiting {
        assert Armed(t, id);
        assert t.waiting[id] in Apply(t, e).timers;
      }
    case EStartTracking =>
    case EStopTracking =>
      if Unlinks(t, e) {
        var id :| id in t.waiting;
        assert t.waiting[id] in t.waiting.Values;
        assert !Armed(Apply(t, e), id);
      }
  }

  /** Over any mix of overlapping polls, fires, stops and starts, entries and armed timers
      correspond one to one if and only if no tracked execution is resumed by a child and
      tracking never stops over entries. */
  lemma LinkedRunIff(t: Tracker, events: seq<Event>)
    requires InStep(t)
    ensures Runs.Always(Apply, InStep, t, events) <==> Runs.Never(Apply, Unlinks, t, events)
  {
    forall t: Tracker, e: Event | InStep(t)
      ensures InStep(Apply(t, e)) <==> !Unlinks(t, e)
    {
      FreshStep(t, e);
      LinkedStepIff(t, e);
    }
    Runs.AlwaysIff(Apply, InStep, Unlinks, t, events);
  }

  // ---------------------------------------------------------------------------
  // The time that a timer is set to
  // ---------------------------------------------------------------------------

  /** When an execution is due to start, if its entry's timer is armed. */
  function Due(t: Tracker, id: ExecutionId): Option<int> {
    if Armed(t, id) then Some(t.timers[t.waiting[id]].armedAt + t.timers[t.waiting[id]].delay) else None
  }

  function FirstRow(rows: seq<Row>, id: ExecutionId): Option<int> {
    if rows == [] then None
    else if rows[0].id == id then Some(rows[0].waitTill)
    else FirstRow(rows[1..], id)
  }

  /** The first `waitTill` seen since the execution was last untracked. */
  function FirstSeen(t: Tracker, events: seq<Event>, id: ExecutionId, seen: Option<int>): Option<int>
    decreases |events|
  {
    if events == [] then seen
    else
      var next :=
        match events[0]
        case EPoll(rows, _) => if seen.Some? then seen else FirstRow(rows, id)
        case EFire(h) => if h in t.timers && t.timers[h].id == id then None else seen
        case EStop(id') => if id' == id then None else seen
        case EResume(id') => if id' == id then None else seen
        case _ => seen;
      FirstSeen(Apply(t, events[0]), events[1..], id, next)
  }

  lemma TrackDue(t: Tracker, row: Row, now: int, id: ExecutionId)
    requires Fresh(t)
    ensures var t1 := Track(t, row, now);
            && Fresh(t1)
            && (id in t1.waiting <==> id in t.waiting || row.id == id)
            && Due(t1, id) == if id !in t.waiting && row.id == id then Some(row.waitTill) else Due(t, id)
  {
    PollFresh(t, [row], now);
    PollOne(t, row, now);
  }

  lemma {:induction false} PollDue(t: Tracker, rows: seq<Row>, now: int, id: ExecutionId)
    requires Fresh(t)
    ensures Due(Poll(t, rows, now), id) == if id in t.waiting then Due(t, id) else FirstRow(rows, id)
    decreases |rows|
  {
    if rows != [] {
      TrackDue(t, rows[0], now, id);
      PollDue(Track(t, rows[0], now), rows[1..], now, id);
    }
  }

  lemma DueStep(t: Tracker, e: Event, id: ExecutionId)
    requires Fresh(t) && Linked(t) && !Unlinks(t, e)
    ensures Due(Apply(t, e), id) == FirstSeen(t, [e], id, Due(t, id))
  {
    assert [e][1..] == [];
    match e
    case EPoll(rows, now) => PollDue(t, rows, now, id);
    case EFire(h) => FireDue(t, h, id);
    case EStop(_) => StopDue(t, e.id, id);
    case _ =>
  }

  lemma FireDue(t: Tracker, h: TimerId, id: ExecutionId)
    requires Fresh(t) && Linked(t)
    ensures Due(Fire(t, h), id) == if h in t.timers && t.timers[h].id == id then None else Due(t, id)
  {
  }

  lemma StopDue(t: Tracker, stopped: ExecutionId, id: ExecutionId)
    requires Fresh(t) && Linked(t)
    ensures Due(StopExecution(t, stopped), id) == if stopped == id then None else Due(t, id)
  {
  }

  lemma FirstSeenStep(t: Tracker, events: seq<Event>, id: ExecutionId, seen: Option<int>)
    requires events != []
    ensures FirstSeen(t, events, id, seen)
         == FirstSeen(Apply(t, events[0]), events[1..], id, FirstSeen(t, [events[0]], id, seen))
  {
    assert [events[0]][1..] == [];
  }

  /** In a run that never unlinks, every armed timer is set to the first `waitTill` seen
      since its execution was last untracked, whatever later polls say. */
  lemma {:induction false} DueIsFirstSeen(t: Tracker, events: seq<Event>, id: ExecutionId)
    requires InStep(t) && Runs.Never(Apply, Unlinks, t, events)
    ensures Due(Exec(t, events), id) == FirstSeen(t, events, id, Due(t, id))
    decreases |events|
  {
    if events != [] {
      var t1 := Apply(t, events[0]);
      assert Runs.After(Apply, t, events, 0) == t by { Runs.AfterAll(Apply, t, events); }
      assert !Unlinks(t, events[0]);
      LinkedStepIff(t, events[0]);
      FreshStep(t, events[0]);
      DueStep(t, events[0], id);
      forall k: nat | k < |events[1..]|
        ensures !Unlinks(Runs.After(Apply, t1, events[1..], k), events[1..][k])
      {
        Runs.AfterRest(Apply, t, events, k);
        assert !Unlinks(Runs.After(Apply, t, events, k + 1), events[k + 1]);
      }
      DueIsFirstSeen(t1, events[1..], id);
      FirstSeenStep(t, events, id, Due(t, id));
    }
  }

  // ---------------------------------------------------------------------------
  // Executions that are never started again
  // ---------------------------------------------------------------------------

  /** An entry whose timer is gone. */
  predicate Dead(t: Tracker, id: ExecutionId) {
    id in t.waiting && t.waiting[id] !in t.timers
  }

  /** The event removes the entry of the execution. */
  predicate Frees(t: Tracker, e: Event, id: ExecutionId) {
    match e
    case EStop(id') => id' == id
    case EResume(id') => id' == id
    case EFire(h) => h in t.timers && t.timers[h].id == id
    case _ => false
  }

  /** Stopping to track kills every entry. */
  lemma StopTrackingKills(t: Tracker, id: ExecutionId)
    requires t.tracking
    ensures Dead(StopTracking(t), id) <==> id in t.waiting
  {
    if id in t.waiting {
      assert t.waiting[id] in t.waiting.Values;
    }
  }

  lemma {:induction false} PollKeepsDead(t: Tracker, rows: seq<Row>, now: int, id: ExecutionId)
    requires Fresh(t) && Dead(t, id)
    ensures Dead(Poll(t, rows, now), id) && Poll(t, rows, now).starts == t.starts
    decreases |rows|
  {
    if rows != [] {
      PollFresh(t, [rows[0]], now);
      PollOne(t, rows[0], now);
      PollKeepsDead(Track(t, rows[0], now), rows[1..], now, id);
    }
  }

  /** A dead entry stays dead, and its execution unstarted, exactly until an event of its
      own removes it: no poll arms it again, nor does tracking anew. */
  lemma DeadStepIff(t: Tracker, e: Event, id: ExecutionId)
    requires Fresh(t) && Dead(t, id)
    ensures Dead(Apply(t, e), id) <==> !Frees(t, e, id)
    ensures !Frees(t, e, id) ==> (id in Apply(t, e).starts <==> id in t.starts)
  {
    if e.EPoll? {
      PollKeepsDead(t, e.rows, e.now, id);
    }
  }

  ghost predicate NeverFrees(t: Tracker, events: seq<Event>, id: ExecutionId)
    decreases |events|
  {
    events == [] || (!Frees(t, events[0], id) && NeverFrees(Apply(t, events[0]), events[1..], id))
  }

  lemma {:induction false} DeadForever(t: Tracker, events: seq<Event>, id: ExecutionId)
    requires Fresh(t) && Dead(t, id) && NeverFrees(t, events, id)
    ensures Dead(Exec(t, events), id) && (id in Exec(t, events).starts <==> id in t.starts)
    decreases |events|
  {
    if events != [] {
      FreshStep(t, events[0]);
      DeadStepIff(t, events[0], id);
      DeadForever(Apply(t, events[0]), events[1..], id);
    }
  }

  /** After `stopTracking` no execution that was tracked is started in any run without an
      event of its own, though it be polled and tracking begin anew. */
  lemma StoppedNeverStarts(t: Tracker, events: seq<Event>, id: ExecutionId)
    requires Fresh(t) && t.tracking && id in t.waiting && NeverFrees(StopTracking(t), events, id)
    ensures var t' := Exec(t, [EStopTracking] + events);
            Dead(t', id) && (id in t'.starts <==> id in t.starts)
  {
    Runs.ExecCons(Apply, t, EStopTracking, events);
    FreshStep(t, EStopTracking);
    StopTrackingKills(t, id);
    DeadForever(StopTracking(t), events, id);
  }

  /** A parent resumed by its child while tracked, and seen again by a poll whose query
      was older, has two armed timers. */
  lemma TwoTimersExample(id: ExecutionId, waitTill: int, now: int)
    ensures var t := Exec(INITIAL,
                          [EPoll([Row(id, waitTill)], now), EResume(id), EPoll([Row(id, waitTill)], now)]);
            && 0 in t.timers && t.timers[0].id == id
            && 1 in t.timers && t.timers[1].id == id
  {
    var t0 := INITIAL;
    var rows := [Row(id, waitTill)];
    var poll, resume := EPoll(rows, now), EResume(id);
    var t1 := Apply(t0, poll);
    var t2 := Apply(t1, resume);
    var t3 := Apply(t2, poll);
    PollOne(t0, rows[0], now);
    PollOne(t2, rows[0], now);
    Runs.ExecCons(Apply, t0, poll, [resume, poll]);
    Runs.ExecTwo(Apply, t1, resume, poll);
    assert [poll] + [resume, poll] == [poll, resume, poll];
  }
}
