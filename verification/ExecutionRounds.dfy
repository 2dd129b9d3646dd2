/** What a later round of an execution inherits, and how every round ends. */
module ExecutionRounds {
  import opened Wrappers
  import opened ConcurrencyControl
  import opened ExecutionLifecycle
  import opened ExecutionSafety

  // ---------------------------------------------------------------------------
  // Wait and resume
  // ---------------------------------------------------------------------------

  predicate AttachesResponse(e: Event, id: Id) {
    e.EAttachResponse? && e.id == id
  }

  /** The id is still in the map, with the same start time and, if `answered` does not
      say otherwise, the same response promise. */
  ghost predicate Carried(s: State, s': State, id: Id, answered: bool)
    requires WellFormed(s) && WellFormed(s') && id in s.active && id in s'.active
  {
    && Entry(s', id).startedAt == Entry(s, id).startedAt
    && (!answered ==> Entry(s', id).response == Entry(s, id).response)
  }

  lemma CarryAdd(s: State, e: Event, id: Id)
    requires WellFormed(s) && id in s.active && e.EAdd?
    ensures id in Apply(s, e).active && Carried(s, Apply(s, e), id, false)
  {
  }

  lemma CarrySettled(s: State, e: Event, id: Id)
    requires WellFormed(s) && id in s.active && e.ESettled? && id in Apply(s, e).active
    ensures Carried(s, Apply(s, e), id, false)
  {
  }

  lemma CarryStop(s: State, other: Id, id: Id)
    requires WellFormed(s) && id in s.active && id in Stop(s, other).active
    ensures Carried(s, Stop(s, other), id, false)
  {
  }

  lemma CarryVisit(s: State, other: Id, regular: bool, cancelAll: bool, id: Id)
    requires WellFormed(s) && id in s.active && id in ShutdownVisit(s, other, regular, cancelAll).active
    ensures Carried(s, ShutdownVisit(s, other, regular, cancelAll), id, false)
  {
    if id in Stop(s, other).active {
      CarryStop(s, other, id);
    }
  }

  /** The steps that add, stop or remove nothing. */
  lemma CarryQuiet(s: State, e: Event, id: Id)
    requires WellFormed(s) && id in s.active && id in Apply(s, e).active
    requires !e.EAdd? && !e.ESettled? && !e.EStop? && !e.EShutdownVisit?
    ensures Carried(s, Apply(s, e), id, AttachesResponse(e, id))
  {
  }

  /** While an id stays in the map, its entry may be replaced by that of a later
      round, but start time and response promise are carried over. */
  lemma CarryStep(s: State, e: Event, id: Id)
    requires WellFormed(s) && id in s.active && id in Apply(s, e).active
    ensures Carried(s, Apply(s, e), id, AttachesResponse(e, id))
  {
    if e.EAdd? {
      CarryAdd(s, e, id);
    } else if e.ESettled? {
      CarrySettled(s, e, id);
    } else if e.EStop? {
      CarryStop(s, e.id, id);
    } else if e.EShutdownVisit? {
      CarryVisit(s, e.id, e.regular, e.cancelAll, id);
    } else {
      CarryQuiet(s, e, id);
    }
  }

  ghost predicate StaysActive(s: State, events: seq<Event>, id: Id)
    requires WellFormed(s)
  {
    forall k: nat :: k <= |events| ==> id in After(s, events, k).active
  }

  predicate AttachedWithin(events: seq<Event>, id: Id, k: nat)
    requires k <= |events|
  {
    k > 0 && (AttachedWithin(events, id, k - 1) || AttachesResponse(events[k - 1], id))
  }

  lemma CarryAfter(s: State, events: seq<Event>, id: Id, k: nat)
    requires WellFormed(s) && k < |events|
    requires id in After(s, events, k).active && id in After(s, events, k + 1).active
    ensures Carried(After(s, events, k), After(s, events, k + 1), id, AttachesResponse(events[k], id))
  {
    AfterStep(s, events, k);
    CarryStep(After(s, events, k), events[k], id);
  }

  lemma CarriedTransitive(a: State, b: State, c: State, id: Id, early: bool, late: bool)
    requires WellFormed(a) && WellFormed(b) && WellFormed(c) && id in a.active && id in b.active && id in c.active
    requires Carried(a, b, id, early) && Carried(b, c, id, late)
    ensures Carried(a, c, id, early || late)
  {
  }

  /** Over any number of rounds: the first start time, and the response promise that
      was current, are those of the last round. */
  lemma {:induction false} CarriedOverRounds(s: State, events: seq<Event>, id: Id, k: nat)
    requires WellFormed(s) && k <= |events| && StaysActive(s, events, id) && id in s.active
    ensures id in After(s, events, k).active
    ensures Carried(s, After(s, events, k), id, AttachedWithin(events, id, k))
    decreases k
  {
    assert id in After(s, events, k).active;
    if k == 0 {
      AfterAll(s, events);
    } else {
      CarriedOverRounds(s, events, id, k - 1);
      CarryAfter(s, events, id, k - 1);
      var early, late := AttachedWithin(events, id, k - 1), AttachesResponse(events[k - 1], id);
      CarriedTransitive(s, After(s, events, k - 1), After(s, events, k), id, early, late);
    }
  }

  // ---------------------------------------------------------------------------
  // Settlement
  // ---------------------------------------------------------------------------

  /** Whatever happens later, the first settlement of a run stands. */
  lemma {:induction false} FirstSettlementWins(s: State, events: seq<Event>, r: nat)
    requires WellFormed(s) && r < |s.runs| && !s.runs[r].post.Pending?
    ensures WellFormed(Exec(s, events)) && r < |Exec(s, events).runs|
    ensures Exec(s, events).runs[r].post == s.runs[r].post
    decreases |events|
  {
    if events != [] {
      var s1 := Apply(s, events[0]);
      assert SameRun(s.runs[r], s1.runs[r]);
      FirstSettlementWins(s1, events[1..], r);
    }
  }

  /** The ways an execution ends: normal end, failure, cancellation and timeout. */
  predicate Ends(e: Event, id: Id) {
    (e.ECompleted? || e.EFailed? || e.EStop?) && e.id == id
  }

  /** An end that leaves the promise alone: an error that reads as a cancellation, or a
      stop of a waiting execution. */
  predicate Dropped(run: Run, e: Event) {
    (e.EFailed? && Absorbed(e.error)) || (e.EStop? && run.status == Waiting)
  }

  /** What the post-execution promise settles to. */
  function EndResult(run: Run, e: Event): Deferred<Option<RunData>>
    requires e.ECompleted? || e.EFailed? || e.EStop?
  {
    match e
    case ECompleted(id, data, isCanceled) =>
      Resolved(Some(RunData(data.finished && !isCanceled, run.status, data.payload)))
    case EFailed(id, error, payload) => Resolved(Some(RunData(false, Errored, payload)))
    case EStop(id) => Rejected
    case _ => assert false; Pending
  }

  /** An ending event settles the pending run of its id, unless it is an error that
      reads as a cancellation or a stop of a waiting execution. */
  lemma EndSettlesIff(s: State, e: Event, id: Id)
    requires WellFormed(s) && id in s.active && Entry(s, id).post.Pending? && Ends(e, id)
    ensures var r, dropped := s.active[id], Dropped(Entry(s, id), e);
            && (Apply(s, e).runs[r].post != Pending <==> !dropped)
            && (!dropped ==> Apply(s, e).runs[r].post == EndResult(Entry(s, id), e) && Apply(s, e).active == s.active)
            && (e.EStop? && dropped ==> Lost(Apply(s, e), r))
  {
  }

  // ---------------------------------------------------------------------------
  // Settlement over a run
  // ---------------------------------------------------------------------------

  /** What the event settles the promise of run `r` to, if it is the entry of its id and
      the event is an end, a finalisation or a shutdown visit that is not dropped. */
  ghost function Settling(s: State, e: Event, r: nat): Option<Deferred<Option<RunData>>>
    requires WellFormed(s) && r < |s.runs|
  {
    var run := s.runs[r];
    if !IsEntry(s, r) then None
    else if Ends(e, run.id) then (if Dropped(run, e) then None else Some(EndResult(run, e)))
    else
      match e
      case EFinalize(id, result) => if id == run.id then Some(Resolved(result)) else None
      case EShutdownVisit(id, regular, cancelAll) =>
        if id == run.id && run.status != Waiting && (run.response.Some? || (regular && cancelAll))
        then Some(Rejected) else None
      case _ => None
  }

  lemma SettlingEnd(s: State, e: Event, r: nat)
    requires WellFormed(s) && r < |s.runs| && s.runs[r].post.Pending?
    requires e.ECompleted? || e.EFailed? || e.EStop?
    ensures Apply(s, e).runs[r].post == Settling(s, e, r).UnwrapOr(Pending)
  {
    if IsEntry(s, r) && e.id == s.runs[r].id {
      EndSettlesIff(s, e, e.id);
    } else if e.id in s.active {
      assert s.active[e.id] != r;
    }
  }

  lemma SettlingVisit(s: State, e: Event, r: nat)
    requires WellFormed(s) && r < |s.runs| && s.runs[r].post.Pending? && e.EShutdownVisit?
    ensures Apply(s, e).runs[r].post == Settling(s, e, r).UnwrapOr(Pending)
  {
    if e.id in s.active && s.active[e.id] != r {
      assert !(IsEntry(s, r) && s.runs[r].id == e.id);
    }
  }

  lemma SettlingStep(s: State, e: Event, r: nat)
    requires WellFormed(s) && r < |s.runs| && s.runs[r].post.Pending?
    ensures Apply(s, e).runs[r].post == Settling(s, e, r).UnwrapOr(Pending)
  {
    if e.ECompleted? || e.EFailed? || e.EStop? {
      SettlingEnd(s, e, r);
    } else if e.EShutdownVisit? {
      SettlingVisit(s, e, r);
    } else {
      SettlingOther(s, e, r);
    }
  }

  lemma SettlingOther(s: State, e: Event, r: nat)
    requires WellFormed(s) && r < |s.runs| && s.runs[r].post.Pending?
    requires !e.ECompleted? && !e.EFailed? && !e.EStop? && !e.EShutdownVisit?
    ensures Apply(s, e).runs[r].post == Settling(s, e, r).UnwrapOr(Pending)
  {
    if e.EFinalize? && e.id in s.active && s.active[e.id] != r {
      assert !(IsEntry(s, r) && s.runs[r].id == e.id);
    }
  }

  /** What the first event of a run that settles the promise settles it to. */
  ghost function FirstSettling(s: State, events: seq<Event>, r: nat): Option<Deferred<Option<RunData>>>
    requires WellFormed(s) && r < |s.runs|
    decreases |events|
  {
    if events == [] then None
    else if Settling(s, events[0], r).Some? then Settling(s, events[0], r)
    else FirstSettling(Apply(s, events[0]), events[1..], r)
  }

  /** Over any interleaving: a pending promise is pending at the end exactly if no
      effective end has met its run as an entry, and otherwise it is settled to the result
      of the first one that did. */
  lemma {:induction false} SettledByFirst(s: State, events: seq<Event>, r: nat)
    requires WellFormed(s) && r < |s.runs| && s.runs[r].post.Pending?
    ensures WellFormed(Exec(s, events)) && r < |Exec(s, events).runs|
    ensures var first := FirstSettling(s, events, r);
            && (first.Some? ==> first.value != Pending)
            && Exec(s, events).runs[r].post == if first.Some? then first.value else Pending
    decreases |events|
  {
    if events != [] {
      var s1 := Apply(s, events[0]);
      SettlingStep(s, events[0], r);
      if Settling(s, events[0], r).Some? {
        SettlingSettles(s, events[0], r);
        FirstSettlementWins(s1, events[1..], r);
      } else {
        SettledByFirst(s1, events[1..], r);
      }
    }
  }

  lemma SettlingSettles(s: State, e: Event, r: nat)
    requires WellFormed(s) && r < |s.runs| && Settling(s, e, r).Some?
    ensures Settling(s, e, r).value != Pending
  {
  }

  // ---------------------------------------------------------------------------
  // An execution that nothing ends
  // ---------------------------------------------------------------------------

  /** An end, a finalisation or a shutdown visit of the execution. */
  predicate Touches(e: Event, id: Id) {
    Ends(e, id) || (e.EFinalize? && e.id == id) || (e.EShutdownVisit? && e.id == id)
  }

  ghost predicate Untouched(events: seq<Event>, id: Id) {
    forall k :: 0 <= k < |events| ==> !Touches(events[k], id)
  }

  /** The execution has an entry, and all its rounds are unsettled. */
  ghost predicate Unended(s: State, id: Id) {
    id in s.active && forall r :: 0 <= r < |s.runs| && s.runs[r].id == id ==> s.runs[r].post.Pending?
  }

  lemma UnendedStep(s: State, e: Event, id: Id)
    requires WellFormed(s) && Unended(s, id) && !Touches(e, id)
    ensures Unended(Apply(s, e), id)
  {
    var s1 := Apply(s, e);
    forall r: nat | r < |s1.runs| && s1.runs[r].id == id
      ensures s1.runs[r].post.Pending?
    {
      if r < |s.runs| {
        assert SameRun(s.runs[r], s1.runs[r]);
        SettlingStep(s, e, r);
      }
    }
    UnendedStays(s, e, id);
  }

  lemma UnendedStays(s: State, e: Event, id: Id)
    requires WellFormed(s) && Unended(s, id) && !Touches(e, id)
    ensures id in Apply(s, e).active
  {
  }

  /** Its promises stay pending, its handlers do not run and it keeps an entry, until
      something ends it. */
  lemma {:induction false} UnendedRun(s: State, events: seq<Event>, id: Id)
    requires WellFormed(s) && Unended(s, id) && Untouched(events, id)
    ensures WellFormed(Exec(s, events)) && Unended(Exec(s, events), id)
    decreases |events|
  {
    if events != [] {
      assert !Touches(events[0], id);
      UnendedStep(s, events[0], id);
      assert forall k :: 0 <= k < |events[1..]| ==> events[1..][k] == events[k + 1];
      UnendedRun(Apply(s, events[0]), events[1..], id);
    }
  }

  // ---------------------------------------------------------------------------
  // What an end leaves alone
  // ---------------------------------------------------------------------------

  /** `add` makes one run, pending and with its handler to come, and it is the entry. */
  lemma AddMakesOneRun(s: State, k: nat, now: int)
    requires WellFormed(s) && k < |s.control.admitted|
    ensures var s', ticket := Add(s, k, now), s.control.admitted[k];
            && |s'.runs| == |s.runs| + 1 && s'.runs[..|s.runs|] == s.runs
            && ticket.id in s'.active && s'.active[ticket.id] == |s.runs|
            && Entry(s', ticket.id).mode == ticket.mode && Entry(s', ticket.id).status == Running
            && Entry(s', ticket.id).post.Pending? && !Entry(s', ticket.id).handled
            && forall id :: id != ticket.id ==> Lookup(s'.active, id) == Lookup(s.active, id)
  {
  }

  /** An end or a finalisation changes no run but the entry of its id, and the map only by
      taking a stopped waiting entry out. */
  lemma EndTouchesOwnEntry(s: State, e: Event, r: nat)
    requires WellFormed(s) && r < |s.runs| && (e.EFinalize? || e.ECompleted? || e.EFailed? || e.EStop?)
    ensures (e.id in s.active && s.active[e.id] == r) || Apply(s, e).runs[r] == s.runs[r]
    ensures !(e.EStop? && e.id in s.active && Entry(s, e.id).status == Waiting) ==> Apply(s, e).active == s.active
    ensures e.id !in s.active || (e.EFailed? && Absorbed(e.error)) ==> Apply(s, e) == s
  {
  }

  /** An end followed by the settle handler: the run is handled and out of the map. */
  lemma EndThenHandler(s: State, e: Event, id: Id)
    requires WellFormed(s) && Tracked(s) && id in s.active && Ends(e, id)
    requires Entry(s, id).post.Pending? && Entry(s, id).status != Waiting
    requires e.EFailed? ==> !Absorbed(e.error)
    ensures var r := s.active[id];
            var s2 := OnSettled(Apply(s, e), r);
            && s2.runs[r].handled && s2.runs[r].post == EndResult(Entry(s, id), e)
            && s2.active == s.active - {id}
            && s2.control == Release(s.control, Entry(s, id).mode)
  {
    var r, s1 := s.active[id], Apply(s, e);
    EndSettlesIff(s, e, id);
    EndKeepsEntry(s, e, id);
    SettledEntryLeaves(s1, id);
  }

  lemma EndKeepsEntry(s: State, e: Event, id: Id)
    requires WellFormed(s) && id in s.active && Ends(e, id) && Entry(s, id).status != Waiting
    ensures var s1 := Apply(s, e);
            && s1.active == s.active && s1.control == s.control
            && Entry(s1, id).status == Entry(s, id).status && Entry(s1, id).handled == Entry(s, id).handled
            && Entry(s1, id).mode == Entry(s, id).mode
  {
  }

  lemma SettledEntryLeaves(s: State, id: Id)
    requires WellFormed(s) && id in s.active && !Entry(s, id).post.Pending? && !Entry(s, id).handled
    requires Entry(s, id).status != Waiting
    ensures var r, s1 := s.active[id], OnSettled(s, s.active[id]);
            && s1.runs[r].handled && s1.runs[r].post == s.runs[r].post
            && s1.active == s.active - {id} && s1.control == Release(s.control, Entry(s, id).mode)
  {
  }

  /** A completion, failure or stop that comes late leaves every post-execution promise as
      it is exactly when its id has no entry or a settled one, or it is dropped anyway;
      otherwise it would end a later round. */
  lemma LateEndAbsorbedIff(s: State, e: Event, id: Id)
    requires WellFormed(s) && Ends(e, id)
    ensures (forall r :: 0 <= r < |s.runs| ==> Apply(s, e).runs[r].post == s.runs[r].post)
       <==> (id !in s.active || !Entry(s, id).post.Pending? || Dropped(Entry(s, id), e))
  {
    forall r: nat | r < |s.runs| {
      EndTouchesOwnEntry(s, e, r);
    }
    if id in s.active && Entry(s, id).post.Pending? {
      EndSettlesIff(s, e, id);
      assert Apply(s, e).runs[s.active[id]].post == s.runs[s.active[id]].post <==> Dropped(Entry(s, id), e);
    }
  }

  predicate Adds(s: State, e: Event, id: Id) {
    e.EAdd? && e.k < |s.control.admitted| && s.control.admitted[e.k].id == id
  }

  /** An id without an entry gets one from an `add` of that id and from nothing else. */
  lemma AbsentStepIff(s: State, e: Event, id: Id)
    requires WellFormed(s) && id !in s.active
    ensures id !in Apply(s, e).active <==> !Adds(s, e, id)
  {
  }

  lemma AbsentAfter(s: State, events: seq<Event>, id: Id, k: nat)
    requires WellFormed(s) && k < |events| && id !in After(s, events, k).active
    requires !Adds(After(s, events, k), events[k], id)
    ensures id !in After(s, events, k + 1).active
  {
    AfterStep(s, events, k);
    AbsentStepIff(After(s, events, k), events[k], id);
  }

  lemma LateEndWhileAbsent(s: State, late: Event, id: Id)
    requires WellFormed(s) && id !in s.active && Ends(late, id)
    ensures Apply(s, late) == s
  {
  }

  /** After a stop and its handler, completions and failures change nothing at all
      until the id is added again. */
  lemma {:induction false} LateEndAbsorbed(s: State, events: seq<Event>, id: Id, k: nat, late: Event)
    requires WellFormed(s) && id !in s.active && k <= |events| && Ends(late, id)
    requires forall j: nat :: j < k ==> !Adds(After(s, events, j), events[j], id)
    ensures id !in After(s, events, k).active
    ensures Apply(After(s, events, k), late) == After(s, events, k)
    decreases k
  {
    AfterAll(s, events);
    if k > 0 {
      LateEndAbsorbed(s, events, id, k - 1, late);
      AbsentAfter(s, events, id, k - 1);
    }
    LateEndWhileAbsent(After(s, events, k), late, id);
  }
}
