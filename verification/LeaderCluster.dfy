/** Several main instances electing a leader by a key that expires: triggers and pollers
    are in memory on one instance alone, and exactly which steps break that. */
module LeaderCluster {
  import opened Wrappers
  import Runs
  import opened WorkflowActivation
  import Local = ActivationSafety

  /** An `add` under way: its role was read before its first await. */
  datatype Pending = Pending(workflow: Workflow, mode: ActivateMode, asLeader: bool)

  /** `loops` are the removals under way after a step-down, each with the ids it has not
      come to; `claims` are the attempts to take the key that are still to be made. */
  datatype Instance = Instance(manager: Manager, pending: seq<Pending>, loops: seq<seq<WorkflowId>>, claims: nat)

  /** `key` is who holds the leader key; a number that is no instance is a process that is
      gone. */
  datatype Cluster = Cluster(key: Option<nat>, instances: seq<Instance>)

  datatype Event =
    /** The leader key runs out. */
    | Expire
    /** `checkLeader` of instance `i`, which read the key as `seen`, perhaps a while ago.
        If it steps down, it begins to remove its workflows in `order`. */
    | Check(i: nat, seen: Option<nat>, order: seq<WorkflowId>)
    /** `tryBecomeLeader`, at the start or after a check that found no leader. What a
        takeover activates are steps of their own. */
    | Claim(i: nat)
    /** Removal `l` comes to its next workflow; `closes` says whether closing works. */
    | RemoveNext(i: nat, l: nat, closes: bool)
    /** The process ends, and its memory with it; a new one may start in its place. */
    | Quit(i: nat)
    /** The process dies and leaves the key behind. The one that starts in its place has
        the host id that the key names, or a new one. */
    | Crash(i: nat, sameHost: bool)
    /** A step of one instance on its own: retries, trigger errors, removals, activations. */
    | At(i: nat, e: Local.Event)
    /** A published command arrives, and only the leader heeds it. */
    | Deliver(i: nat, command: Command, active: bool, closes: bool)
    | BeginAdd(i: nat, workflow: Workflow, mode: ActivateMode)
    | EndAdd(i: nat, k: nat, outcome: Outcome)

  const FRESH := Instance(Local.Initial(true, false), [], [], 1)

  predicate Enumerates(order: seq<WorkflowId>, memory: set<WorkflowId>) {
    && (forall w :: w in memory ==> w in order)
    && (forall w :: w in order ==> w in memory)
    && (forall j, k :: 0 <= j < k < |order| ==> order[j] != order[k])
  }

  predicate Enabled(c: Cluster, e: Event) {
    && (!e.Expire? ==> e.i < |c.instances|)
    && (e.Check? ==> Enumerates(e.order, c.instances[e.i].manager.memory))
    && (e.Claim? ==> c.instances[e.i].claims > 0)
    && (e.RemoveNext? ==> e.l < |c.instances[e.i].loops| && c.instances[e.i].loops[e.l] != [])
    && (e.EndAdd? ==> e.k < |c.instances[e.i].pending|)
  }

  /** `markAsFollower` and the beginning of the removal. */
  function StepDown(inst: Instance, order: seq<WorkflowId>): Instance {
    inst.(manager := inst.manager.(isLeader := false), loops := inst.loops + [order])
  }

  /** One turn of the removal: a failing close function ends it. */
  function Removed(inst: Instance, l: nat, closes: bool): Instance
    requires l < |inst.loops| && inst.loops[l] != []
  {
    var w := inst.loops[l][0];
    if w in inst.manager.memory && !closes then inst.(loops := inst.loops[l := []])
    else inst.(manager := inst.manager.(memory := inst.manager.memory - {w}),
               loops := inst.loops[l := inst.loops[l][1..]])
  }

  /** The tail of an `add` runs with the role it read at its start. */
  function Finish(m: Manager, p: Pending, outcome: Outcome): Manager {
    Add(m.(isLeader := p.asLeader), p.workflow, p.mode, false, outcome).0.(isLeader := m.isLeader)
  }

  function Begin(inst: Instance, workflow: Workflow, mode: ActivateMode): Instance {
    inst.(pending := inst.pending + [Pending(workflow, mode, inst.manager.isLeader)])
  }

  function Receive(inst: Instance, command: Command, active: bool, closes: bool): Instance {
    if !inst.manager.isLeader then inst
    else
      match command
      case AddCommand(id) => Begin(inst, Workflow(id, active), Activate)
      case RemoveCommand(id) => inst.(manager := HandleRemove(inst.manager, id, closes))
  }

  /** What one step makes of the instance that takes it. */
  function Acted(c: Cluster, e: Event): Instance
    requires Enabled(c, e) && !e.Expire?
  {
    var inst := c.instances[e.i];
    match e
    case Check(i, seen, order) =>
      if seen == Some(i) || (seen.Some? && !inst.manager.isLeader) then inst
      else if seen.Some? then StepDown(inst, order)
      else StepDown(inst, order).(claims := inst.claims + 1)
    case Claim(_) => inst.(manager := inst.manager.(isLeader := c.key.None?), claims := inst.claims - 1)
    case RemoveNext(_, l, closes) => Removed(inst, l, closes)
    case Quit(_) => FRESH
    case Crash(_, _) => FRESH
    case At(_, local) => inst.(manager := Local.Apply(inst.manager, local))
    case Deliver(_, command, active, closes) => Receive(inst, command, active, closes)
    case BeginAdd(_, workflow, mode) => Begin(inst, workflow, mode)
    case EndAdd(_, k, outcome) =>
      inst.(manager := Finish(inst.manager, inst.pending[k], outcome),
            pending := inst.pending[..k] + inst.pending[k + 1..])
  }

  /** Whether the step takes the leader key, which only succeeds while it is vacant. */
  predicate TakesKey(c: Cluster, e: Event) {
    e.Claim? && c.key.None?
  }

  function Apply(c: Cluster, e: Event): Cluster {
    if !Enabled(c, e) then c
    else if e.Expire? then c.(key := None)
    else
      Cluster(if TakesKey(c, e) then Some(e.i)
              else if e.Quit? && c.instances[e.i].manager.isLeader then None
              else if e.Crash? && c.key == Some(e.i) && !e.sameHost then Some(|c.instances|)
              else c.key,
              c.instances[e.i := Acted(c, e)])
  }

  function Exec(c: Cluster, events: seq<Event>): Cluster {
    Runs.Exec(Apply, c, events)
  }

  // ---------------------------------------------------------------------------
  // The invariant, and what each step does to it
  // ---------------------------------------------------------------------------

  /** An instance of a multi-main setup, whose retries only publish. */
  predicate Member(m: Manager) {
    m.isMultiMain && m.retrying == map[]
  }

  predicate Leaving(loops: seq<seq<WorkflowId>>, w: WorkflowId) {
    exists l :: 0 <= l < |loops| && w in loops[l]
  }

  /** What a follower has in memory a removal under way will come to. */
  ghost predicate Covered(inst: Instance) {
    inst.manager.isLeader || forall w :: w in inst.manager.memory ==> Leaving(inst.loops, w)
  }

  predicate Leads(c: Cluster, i: int) {
    0 <= i < |c.instances| && c.instances[i].manager.isLeader
  }

  /** The instance leads, or has something in memory. */
  predicate Holds(c: Cluster, i: int) {
    0 <= i < |c.instances| && (c.instances[i].manager.isLeader || c.instances[i].manager.memory != {})
  }

  ghost predicate Homed(c: Cluster) {
    forall i :: 0 <= i < |c.instances| ==> Member(c.instances[i].manager) && Covered(c.instances[i])
  }

  ghost predicate Alone(c: Cluster) {
    forall i, j :: Holds(c, i) && Holds(c, j) ==> i == j
  }

  ghost predicate Exclusive(c: Cluster) {
    Homed(c) && Alone(c)
  }

  /** A cluster of instances that have just started. */
  lemma InitialHolds(instances: seq<Instance>)
    requires forall i :: 0 <= i < |instances| ==> instances[i] == FRESH
    ensures Exclusive(Cluster(None, instances)) && KeyLeads(Cluster(None, instances))
  {
  }

  /** What it is for: no workflow is in memory on two instances, and the one that has it
      leads, or is about to remove it while nobody leads. */
  lemma OneHome(c: Cluster, w: WorkflowId, i: nat, j: nat)
    requires Exclusive(c) && i < |c.instances| && j < |c.instances|
    requires w in c.instances[i].manager.memory
    ensures w in c.instances[j].manager.memory ==> i == j
    ensures Leads(c, j) ==> i == j
    ensures Leads(c, i) || Leaving(c.instances[i].loops, w)
  {
    assert Holds(c, i) && Covered(c.instances[i]);
    if w in c.instances[j].manager.memory || Leads(c, j) {
      assert Holds(c, j);
    }
  }

  lemma AddKeepsRole(m: Manager, workflow: Workflow, mode: ActivateMode, shouldPublish: bool, outcome: Outcome)
    ensures var m1 := Add(m, workflow, mode, shouldPublish, outcome).0;
            && m1.isLeader == m.isLeader && m1.isMultiMain == m.isMultiMain && m1.retrying == m.retrying
            && (!m.isLeader ==> m1.memory == m.memory)
  {
    var m1 := Install(m, workflow.id, outcome);
    Local.PlaceKeepsTimers(m, m.isLeader, workflow.id, PlacementOf(outcome));
    assert !m.isLeader ==> m1 == m;
  }

  lemma ActivateKeepsRole(m: Manager, id: WorkflowId, mode: ActivateMode, attempt: Attempt)
    ensures var m1 := ActivateWorkflow(m, id, mode, attempt);
            && m1.isLeader == m.isLeader && m1.isMultiMain == m.isMultiMain && m1.retrying == m.retrying
            && (!m.isLeader ==> m1.memory == m.memory)
  {
    if attempt.Found? {
      AddKeepsRole(m, Workflow(id, attempt.active), mode, false, attempt.outcome);
    }
  }

  lemma LocalKeepsRole(m: Manager, e: Local.Event)
    requires Member(m)
    ensures var m1 := Local.Apply(m, e);
            Member(m1) && m1.isLeader == m.isLeader && (!m.isLeader ==> m1.memory <= m.memory)
  {
    match e
    case EAdd(workflow, mode, shouldPublish, outcome) => AddKeepsRole(m, workflow, mode, shouldPublish, outcome);
    case EFire(_) =>
    case EDequeue(_, _) =>
    case EEnd(_, _) =>
    case ETriggerError(_, _, _, _) =>
    case ERemove(_, _) =>
    case EHandleRemove(_, _) =>
    case EActivate(id, mode, attempt) => ActivateKeepsRole(m, id, mode, attempt);
    case EClearErrors =>
  }

  /** An `add` that began as leader places its workflow on what is a follower by now. */
  predicate PlacesLate(c: Cluster, e: Event) {
    && Enabled(c, e) && e.EndAdd?
    && var p := c.instances[e.i].pending[e.k];
       p.asLeader && !c.instances[e.i].manager.isLeader
       && PlacementOf(e.outcome).Placed? && !SkippedAsInactive(p.workflow, p.mode)
  }

  /** The step leaves a follower with something in memory that no removal will come to: a
      late placement, a close function that fails, or a leader that loses the key again
      before it has removed anything. */
  ghost predicate Strays(c: Cluster, e: Event) {
    && Enabled(c, e)
    && match e
       case EndAdd(i, k, _) => PlacesLate(c, e) && !Leaving(c.instances[i].loops, c.instances[i].pending[k].workflow.id)
       case RemoveNext(i, l, closes) =>
         var inst := c.instances[i];
         && !closes && !inst.manager.isLeader && inst.loops[l][0] in inst.manager.memory
         && exists w :: w in inst.manager.memory && !Leaving(inst.loops[l := []], w)
       case Claim(i) =>
         var inst := c.instances[i];
         c.key.Some? && inst.manager.isLeader && exists w :: w in inst.manager.memory && !Leaving(inst.loops, w)
       case _ => false
  }

  /** The step makes a second holder: the key is taken while another instance still leads
      or still removes, or a workflow is placed late while another instance holds. */
  ghost predicate Overlaps(c: Cluster, e: Event) {
    Enabled(c, e) && (TakesKey(c, e) || PlacesLate(c, e)) && exists j :: Holds(c, j) && j != e.i
  }

  lemma StepDownCovered(inst: Instance, order: seq<WorkflowId>)
    requires Enumerates(order, inst.manager.memory)
    ensures Covered(StepDown(inst, order))
  {
    forall w | w in inst.manager.memory
      ensures Leaving(inst.loops + [order], w)
    {
      assert (inst.loops + [order])[|inst.loops|] == order;
    }
  }

  lemma RemovedCovered(inst: Instance, l: nat, closes: bool)
    requires l < |inst.loops| && inst.loops[l] != [] && Covered(inst)
    ensures Covered(Removed(inst, l, closes)) <==>
              closes || inst.manager.isLeader || inst.loops[l][0] !in inst.manager.memory
              || !exists w :: w in inst.manager.memory && !Leaving(inst.loops[l := []], w)
  {
    var head := inst.loops[l][0];
    if !inst.manager.isLeader && (closes || head !in inst.manager.memory) {
      var loops := inst.loops[l := inst.loops[l][1..]];
      forall w | w in inst.manager.memory - {head}
        ensures Leaving(loops, w)
      {
        assert Leaving(inst.loops, w);
        var j :| 0 <= j < |inst.loops| && w in inst.loops[j];
        assert w in loops[j] by { if j == l { assert inst.loops[l] == [head] + inst.loops[l][1..]; } }
      }
    }
  }

  lemma FinishPlaces(m: Manager, p: Pending, outcome: Outcome)
    ensures var m1 := Finish(m, p, outcome);
            && m1.isLeader == m.isLeader && m1.isMultiMain == m.isMultiMain && m1.retrying == m.retrying
            && m1.memory == if !p.asLeader || SkippedAsInactive(p.workflow, p.mode) then m.memory
                            else match PlacementOf(outcome)
                                 case Untouched => m.memory
                                 case Placed => m.memory + {p.workflow.id}
                                 case Dropped => m.memory - {p.workflow.id}
  {
    AddKeepsRole(m.(isLeader := p.asLeader), p.workflow, p.mode, false, outcome);
  }

  lemma EndAddActed(c: Cluster, e: Event)
    requires Enabled(c, e) && e.EndAdd? && Member(c.instances[e.i].manager) && Covered(c.instances[e.i])
    ensures Member(Acted(c, e).manager)
    ensures Covered(Acted(c, e)) <==> !Strays(c, e)
    ensures Acted(c, e).manager.isLeader == c.instances[e.i].manager.isLeader
    ensures PlacesLate(c, e) ==> Acted(c, e).manager.memory != {}
    ensures !c.instances[e.i].manager.isLeader && !PlacesLate(c, e) ==>
              Acted(c, e).manager.memory <= c.instances[e.i].manager.memory
  {
    var inst := c.instances[e.i];
    var p := inst.pending[e.k];
    FinishPlaces(inst.manager, p, e.outcome);
    if PlacesLate(c, e) {
      assert p.workflow.id in Acted(c, e).manager.memory;
    }
  }

  /** What any step makes of the instance that takes it. */
  lemma ActedHolds(c: Cluster, e: Event)
    requires Enabled(c, e) && !e.Expire? && Member(c.instances[e.i].manager) && Covered(c.instances[e.i])
    ensures Member(Acted(c, e).manager)
    ensures Covered(Acted(c, e)) <==> !Strays(c, e)
    ensures TakesKey(c, e) || PlacesLate(c, e) ==> Acted(c, e).manager.isLeader || Acted(c, e).manager.memory != {}
    ensures !TakesKey(c, e) && !PlacesLate(c, e) &&
            (Acted(c, e).manager.isLeader || Acted(c, e).manager.memory != {}) ==>
              Holds(c, e.i)
  {
    var inst := c.instances[e.i];
    match e
    case Check(_, _, order) => StepDownCovered(inst, order);
    case Claim(_) =>
    case RemoveNext(_, l, closes) => RemovedCovered(inst, l, closes);
    case Quit(_) =>
    case Crash(_, _) =>
    case At(_, local) => LocalKeepsRole(inst.manager, local);
    case Deliver(_, _, _, _) =>
    case BeginAdd(_, _, _) =>
    case EndAdd(_, _, _) => EndAddActed(c, e);
  }

  lemma HomedStepIff(c: Cluster, e: Event)
    requires Homed(c)
    ensures Homed(Apply(c, e)) <==> !Strays(c, e)
  {
    if Enabled(c, e) && !e.Expire? {
      var c1 := Apply(c, e);
      ActedHolds(c, e);
      assert c1.instances[e.i] == Acted(c, e);
      assert forall i :: 0 <= i < |c.instances| && i != e.i ==> c1.instances[i] == c.instances[i];
    }
  }

  lemma AloneStepIff(c: Cluster, e: Event)
    requires Exclusive(c)
    ensures Alone(Apply(c, e)) <==> !Overlaps(c, e)
  {
    var c1 := Apply(c, e);
    if Enabled(c, e) && !e.Expire? {
      ActedHolds(c, e);
      assert forall i :: i != e.i ==> (Holds(c1, i) <==> Holds(c, i));
      if Overlaps(c, e) {
        var j :| Holds(c, j) && j != e.i;
        assert Holds(c1, j) && Holds(c1, e.i);
      } else {
        forall i, j | Holds(c1, i) && Holds(c1, j)
          ensures i == j
        {
          assert i != e.i ==> Holds(c, i);
          assert j != e.i ==> Holds(c, j);
        }
      }
    } else {
      assert forall i :: Holds(c1, i) <==> Holds(c, i);
    }
  }

  /** The step is of none of the breaking kinds. */
  ghost predicate Disturbs(c: Cluster, e: Event) {
    Strays(c, e) || Overlaps(c, e)
  }

  lemma ExclusiveStepIff(c: Cluster, e: Event)
    requires Exclusive(c)
    ensures Exclusive(Apply(c, e)) <==> !Disturbs(c, e)
  {
    HomedStepIff(c, e);
    AloneStepIff(c, e);
  }

  /** Over every run and any interleaving, what is in memory is in memory on one instance,
      the leader or one that is removing it, if and only if no step strays and none
      overlaps. */
  lemma ExclusiveRunIff(c: Cluster, events: seq<Event>)
    requires Exclusive(c)
    ensures Runs.Always(Apply, Exclusive, c, events) <==> Runs.Never(Apply, Disturbs, c, events)
  {
    forall c: Cluster, e: Event | Exclusive(c)
      ensures Exclusive(Apply(c, e)) <==> !Disturbs(c, e)
    {
      ExclusiveStepIff(c, e);
    }
    Runs.AlwaysIff(Apply, Exclusive, Disturbs, c, events);
  }

  // ---------------------------------------------------------------------------
  // The leader key
  // ---------------------------------------------------------------------------

  /** An instance leads if and only if it holds the key. */
  ghost predicate KeyLeads(c: Cluster) {
    forall i :: 0 <= i < |c.instances| ==> (c.instances[i].manager.isLeader <==> c.key == Some(i))
  }

  /** The key of a leader runs out, or an instance acts on a stale reading of the key that
      it holds by now, or a leader dies and comes back under the host id that holds it. */
  predicate Unkeys(c: Cluster, e: Event) {
    && Enabled(c, e) && c.key.Some?
    && match e
       case Expire => c.key.value < |c.instances|
       case Check(i, seen, _) => c.key == Some(i) && seen != Some(i)
       case Claim(i) => c.key == Some(i)
       case Crash(i, sameHost) => c.key == Some(i) && sameHost
       case _ => false
  }

  lemma LocalRole(m: Manager, e: Local.Event)
    ensures Local.Apply(m, e).isLeader == m.isLeader
  {
    match e
    case EAdd(workflow, mode, shouldPublish, outcome) => AddKeepsRole(m, workflow, mode, shouldPublish, outcome);
    case EEnd(t, end) => EndKeepsRole(m, t, end);
    case EActivate(id, mode, attempt) => ActivateKeepsRole(m, id, mode, attempt);
    case _ =>
  }

  lemma EndKeepsRole(m: Manager, t: TimerId, end: End)
    ensures EndRetry(m, t, end).isLeader == m.isLeader
  {
  }

  lemma KeyLeadsStepIff(c: Cluster, e: Event)
    requires KeyLeads(c)
    ensures KeyLeads(Apply(c, e)) <==> !Unkeys(c, e)
  {
    var c1 := Apply(c, e);
    if Enabled(c, e) {
      if e.Expire? {
        if Unkeys(c, e) {
          assert !(c1.instances[c.key.value].manager.isLeader <==> c1.key == Some(c.key.value));
        }
      } else {
        var m := c.instances[e.i].manager;
        assert c1.instances[e.i] == Acted(c, e);
        assert forall i :: 0 <= i < |c.instances| && i != e.i ==> c1.instances[i] == c.instances[i];
        if e.At? {
          LocalRole(m, e.e);
        } else if e.EndAdd? {
          FinishPlaces(m, c.instances[e.i].pending[e.k], e.outcome);
        }
      }
    }
  }

  /** Over every run from a state where the holder of the key and nobody else leads, that
      stays so if and only if no step is of those kinds. */
  lemma KeyLeadsRunIff(c: Cluster, events: seq<Event>)
    requires KeyLeads(c)
    ensures Runs.Always(Apply, KeyLeads, c, events) <==> Runs.Never(Apply, Unkeys, c, events)
  {
    forall c: Cluster, e: Event | KeyLeads(c)
      ensures KeyLeads(Apply(c, e)) <==> !Unkeys(c, e)
    {
      KeyLeadsStepIff(c, e);
    }
    Runs.AlwaysIff(Apply, KeyLeads, Unkeys, c, events);
  }

  /** While it is so, no two instances lead, and a takeover overlaps only with instances
      that have stepped down and are still removing. */
  lemma OverlapUnderKey(c: Cluster, e: Event, i: nat, j: nat)
    requires KeyLeads(c)
    ensures Leads(c, i) && Leads(c, j) ==> i == j
    ensures TakesKey(c, e) && Holds(c, j) ==> !Leads(c, j) && c.instances[j].manager.memory != {}
  {
  }

  /** The key is held, and nobody leads. */
  ghost predicate Leaderless(c: Cluster) {
    c.key.Some? && forall i :: 0 <= i < |c.instances| ==> !c.instances[i].manager.isLeader
  }

  lemma LeaderlessStepIff(c: Cluster, e: Event)
    requires Leaderless(c)
    ensures Leaderless(Apply(c, e)) <==> !e.Expire?
  {
    var c1 := Apply(c, e);
    if Enabled(c, e) && !e.Expire? {
      var m := c.instances[e.i].manager;
      assert c1.instances[e.i] == Acted(c, e);
      assert forall i :: 0 <= i < |c.instances| && i != e.i ==> c1.instances[i] == c.instances[i];
      if e.At? {
        LocalRole(m, e.e);
      } else if e.EndAdd? {
        FinishPlaces(m, c.instances[e.i].pending[e.k], e.outcome);
      }
    }
  }

  /** Once nobody leads although the key is held, that stays so over a run exactly until the
      key runs out. */
  lemma LeaderlessRunIff(c: Cluster, events: seq<Event>)
    requires Leaderless(c)
    ensures Runs.Always(Apply, Leaderless, c, events) <==> forall k :: 0 <= k < |events| ==> !events[k].Expire?
  {
    var expires := (c: Cluster, e: Event) => e.Expire?;
    forall c: Cluster, e: Event | Leaderless(c)
      ensures Leaderless(Apply(c, e)) <==> !expires(c, e)
    {
      LeaderlessStepIff(c, e);
    }
    Runs.AlwaysIff(Apply, Leaderless, expires, c, events);
    if Runs.Never(Apply, expires, c, events) {
      forall k | 0 <= k < |events|
        ensures !events[k].Expire?
      {
        assert !expires(Runs.After(Apply, c, events, k), events[k]);
      }
    }
  }

  // ---------------------------------------------------------------------------
  // A removal from its beginning to its end
  // ---------------------------------------------------------------------------

  /** Removal `l` with nothing in between. */
  function RunLoop(inst: Instance, l: nat, failing: set<WorkflowId>): Instance
    requires l < |inst.loops|
    decreases |inst.loops[l]|
  {
    if inst.loops[l] == [] then inst else RunLoop(Removed(inst, l, inst.loops[l][0] !in failing), l, failing)
  }

  /** It leaves in memory what the loop over all of it leaves. */
  lemma {:induction false} RunLoopIsRemoveAll(inst: Instance, l: nat, failing: set<WorkflowId>)
    requires l < |inst.loops|
    ensures RunLoop(inst, l, failing)
         == inst.(manager := inst.manager.(memory := RemoveAll(inst.manager.memory, inst.loops[l], failing)),
                  loops := inst.loops[l := []])
    decreases |inst.loops[l]|
  {
    if inst.loops[l] == [] {
      assert inst.loops[l := []] == inst.loops;
    } else {
      var inst1 := Removed(inst, l, inst.loops[l][0] !in failing);
      RunLoopIsRemoveAll(inst1, l, failing);
      assert inst1.loops[l := []] == inst.loops[l := []];
    }
  }

  lemma {:induction false} RemoveAllLeaves(memory: set<WorkflowId>, order: seq<WorkflowId>, failing: set<WorkflowId>)
    requires Enumerates(order, memory)
    ensures RemoveAll(memory, order, failing) <= memory
    ensures RemoveAll(memory, order, failing) == {} <==> memory !! failing
    decreases |order|
  {
    if order == [] {
      assert memory == {};
    } else if order[0] in failing {
      assert order[0] in memory;
    } else {
      assert forall w :: w in order[1..] ==> w in order;
      assert forall w :: w in memory - {order[0]} ==> w in order[1..];
      RemoveAllLeaves(memory - {order[0]}, order[1..], failing);
    }
  }

  /** The old leader notices the new one, and its removal runs to its end. */
  function Noticed(c: Cluster, i: nat, j: nat, order: seq<WorkflowId>, failing: set<WorkflowId>): Cluster
    requires i < |c.instances|
  {
    var c1 := Apply(c, Check(i, Some(j), order));
    if |c1.instances[i].loops| == 0 then c1
    else c1.(instances := c1.instances[i := RunLoop(c1.instances[i], |c1.instances[i].loops| - 1, failing)])
  }

  /** An overlap of two leaders ends with that, exactly if none of the old leader's close
      functions fails and no third instance holds. */
  lemma OverlapEndsIff(c: Cluster, i: nat, j: nat, order: seq<WorkflowId>, failing: set<WorkflowId>)
    requires Homed(c) && Leads(c, i) && Leads(c, j) && i != j && Enumerates(order, c.instances[i].manager.memory)
    ensures Exclusive(Noticed(c, i, j, order, failing)) <==>
              c.instances[i].manager.memory !! failing && forall k :: Holds(c, k) ==> k == i || k == j
  {
    var inst := c.instances[i];
    var inst1 := StepDown(inst, order);
    var l := |inst.loops|;
    assert inst1.loops[l] == order;
    RunLoopIsRemoveAll(inst1, l, failing);
    RemoveAllLeaves(inst.manager.memory, order, failing);
    var c2 := Noticed(c, i, j, order, failing);
    assert c2.instances[i] == RunLoop(inst1, l, failing);
    assert forall k :: k != i ==> (Holds(c2, k) <==> Holds(c, k));
    assert forall k :: 0 <= k < |c.instances| && k != i ==> c2.instances[k] == c.instances[k];
    assert Holds(c2, j);
    if !(inst.manager.memory !! failing) {
      assert Holds(c2, i);
    } else if k :| Holds(c, k) && k != i && k != j {
      assert Holds(c2, k);
    } else {
      assert !Holds(c2, i);
      assert Member(inst.manager);
      assert Covered(c2.instances[i]);
    }
  }

  // ---------------------------------------------------------------------------
  // Whether a leader keeps what it has activated
  // ---------------------------------------------------------------------------

  predicate InMemory(c: Cluster, i: nat, w: WorkflowId) {
    i < |c.instances| && w in c.instances[i].manager.memory
  }

  /** A failing activation takes its workflow out of memory. */
  predicate Drops(workflow: Workflow, mode: ActivateMode, outcome: Outcome, w: WorkflowId) {
    workflow.id == w && PlacementOf(outcome).Dropped? && !SkippedAsInactive(workflow, mode)
  }

  predicate Unloads(e: Local.Event, w: WorkflowId) {
    match e
    case EAdd(workflow, mode, shouldPublish, outcome) => !shouldPublish && Drops(workflow, mode, outcome, w)
    case ETriggerError(workflow, _, _, closes) => workflow.id == w && closes
    case EHandleRemove(id, closes) => id == w && closes
    case EActivate(id, mode, attempt) => attempt.Found? && Drops(Workflow(id, attempt.active), mode, attempt.outcome, w)
    case _ => false
  }

  /** The leader `i` steps down or ends, or `w` has a removal, a trigger error or a failing
      activation of its own there. */
  predicate Disowns(c: Cluster, e: Event, i: nat, w: WorkflowId) {
    && Enabled(c, e) && !e.Expire? && e.i == i
    && match e
       case Check(_, seen, _) => seen != Some(i)
       case Claim(_) => c.key.Some?
       case Quit(_) => true
       case Crash(_, _) => true
       case At(_, local) => Unloads(local, w)
       case Deliver(_, command, _, closes) => command == RemoveCommand(w) && closes
       case EndAdd(_, k, outcome) =>
         var p := c.instances[i].pending[k];
         p.asLeader && Drops(p.workflow, p.mode, outcome, w)
       case _ => false
  }

  predicate Undisturbed(c: Cluster, events: seq<Event>, i: nat, w: WorkflowId)
    decreases |events|
  {
    events == [] || (!Disowns(c, events[0], i, w) && Undisturbed(Apply(c, events[0]), events[1..], i, w))
  }

  /** Whatever else happens, the leader keeps the workflow in memory. */
  ghost predicate StaysInMemory(c: Cluster, i: nat, w: WorkflowId) {
    forall events :: Undisturbed(c, events, i, w) ==> InMemory(Exec(c, events), i, w)
  }

  /** A leader that has the workflow in memory, and no removal under way will come to it. */
  ghost predicate Secure(c: Cluster, i: nat, w: WorkflowId) {
    && Leads(c, i) && Member(c.instances[i].manager) && InMemory(c, i, w)
    && !Leaving(c.instances[i].loops, w)
  }

  lemma RemovedKeeps(inst: Instance, l: nat, closes: bool, w: WorkflowId)
    requires l < |inst.loops| && inst.loops[l] != [] && !Leaving(inst.loops, w) && w in inst.manager.memory
    ensures w in Removed(inst, l, closes).manager.memory && !Leaving(Removed(inst, l, closes).loops, w)
  {
    assert w !in inst.loops[l] && inst.loops[l][0] in inst.loops[l];
    assert forall v :: v in inst.loops[l][1..] ==> v in inst.loops[l];
    var loops := Removed(inst, l, closes).loops;
    assert forall k :: 0 <= k < |loops| ==> w !in loops[k] by {
      forall k | 0 <= k < |loops|
        ensures w !in loops[k]
      {
        assert w !in inst.loops[k];
      }
    }
  }

  lemma AddUnloadsIff(m: Manager, workflow: Workflow, mode: ActivateMode, shouldPublish: bool, outcome: Outcome,
                      w: WorkflowId)
    requires Member(m) && m.isLeader && w in m.memory
    ensures w in Add(m, workflow, mode, shouldPublish, outcome).0.memory
       <==> shouldPublish || !Drops(workflow, mode, outcome, w)
  {
    Local.PlaceKeepsTimers(m, m.isLeader, workflow.id, PlacementOf(outcome));
  }

  lemma LocalUnloadsIff(m: Manager, e: Local.Event, w: WorkflowId)
    requires Member(m) && m.isLeader && w in m.memory
    ensures w in Local.Apply(m, e).memory <==> !Unloads(e, w)
  {
    match e
    case EAdd(workflow, mode, shouldPublish, outcome) => AddUnloadsIff(m, workflow, mode, shouldPublish, outcome, w);
    case EActivate(id, mode, attempt) =>
      if attempt.Found? {
        AddUnloadsIff(m, Workflow(id, attempt.active), mode, false, attempt.outcome, w);
      }
    case _ =>
  }

  /** What a step of the leader's own makes of it. */
  lemma ActedSecureIff(c: Cluster, e: Event, w: WorkflowId)
    requires Enabled(c, e) && !e.Expire? && Secure(c, e.i, w)
    ensures var inst := Acted(c, e);
            && Member(inst.manager)
            && (inst.manager.isLeader && w in inst.manager.memory && !Leaving(inst.loops, w)
                <==> !Disowns(c, e, e.i, w))
  {
    var inst := c.instances[e.i];
    match e
    case RemoveNext(_, l, closes) => RemovedKeeps(inst, l, closes, w);
    case At(_, local) =>
      LocalKeepsRole(inst.manager, local);
      LocalUnloadsIff(inst.manager, local, w);
    case EndAdd(_, k, outcome) => FinishPlaces(inst.manager, inst.pending[k], outcome);
    case _ =>
  }

  /** Any step leaves the workflow secure exactly unless it disowns it. */
  lemma SecureStepIff(c: Cluster, e: Event, i: nat, w: WorkflowId)
    requires Secure(c, i, w)
    ensures Secure(Apply(c, e), i, w) <==> !Disowns(c, e, i, w)
  {
    if Enabled(c, e) && !e.Expire? {
      var c1 := Apply(c, e);
      assert c1.instances[e.i] == Acted(c, e);
      assert e.i != i ==> c1.instances[i] == c.instances[i];
      if e.i == i {
        ActedSecureIff(c, e, w);
      }
    }
  }

  lemma {:induction false} SecureRun(c: Cluster, events: seq<Event>, i: nat, w: WorkflowId)
    requires Secure(c, i, w) && Undisturbed(c, events, i, w)
    ensures Secure(Exec(c, events), i, w)
    decreases |events|
  {
    if events != [] {
      SecureStepIff(c, events[0], i, w);
      SecureRun(Apply(c, events[0]), events[1..], i, w);
    }
  }

  lemma NotAfterStep(c: Cluster, e: Event, i: nat, w: WorkflowId)
    requires !Disowns(c, e, i, w) && !StaysInMemory(Apply(c, e), i, w)
    ensures !StaysInMemory(c, i, w)
  {
    var rest :| Undisturbed(Apply(c, e), rest, i, w) && !InMemory(Exec(Apply(c, e), rest), i, w);
    Runs.ExecCons(Apply, c, e, rest);
    var events := [e] + rest;
    assert events[0] == e && events[1..] == rest;
    assert Undisturbed(c, events, i, w) && !InMemory(Exec(c, events), i, w);
  }

  /** A removal that runs on comes to everything it has not come to. */
  lemma {:induction false} LeavingLeaves(c: Cluster, i: nat, l: nat, k: nat)
    requires i < |c.instances| && l < |c.instances[i].loops| && k < |c.instances[i].loops[l]|
    ensures !StaysInMemory(c, i, c.instances[i].loops[l][k])
    decreases k
  {
    var w, e := c.instances[i].loops[l][k], RemoveNext(i, l, true);
    var c1 := Apply(c, e);
    assert c1.instances[i] == Removed(c.instances[i], l, true);
    if k == 0 {
      assert Undisturbed(c1, [], i, w) && Exec(c1, []) == c1 && !InMemory(c1, i, w);
    } else {
      assert c1.instances[i].loops[l][k - 1] == w;
      LeavingLeaves(c1, i, l, k - 1);
    }
    NotAfterStep(c, e, i, w);
  }

  /** A leader keeps a workflow in memory over every run in which it neither steps down nor
      ends and the workflow has no removal, trigger error or failing activation of its own,
      if and only if no removal begun in an earlier step-down has still to come to it. */
  lemma LeaderKeepsIff(c: Cluster, i: nat, w: WorkflowId)
    requires Leads(c, i) && Member(c.instances[i].manager) && InMemory(c, i, w)
    ensures StaysInMemory(c, i, w) <==> !Leaving(c.instances[i].loops, w)
  {
    if l :| 0 <= l < |c.instances[i].loops| && w in c.instances[i].loops[l] {
      var k :| 0 <= k < |c.instances[i].loops[l]| && c.instances[i].loops[l][k] == w;
      LeavingLeaves(c, i, l, k);
    } else {
      forall events | Undisturbed(c, events, i, w)
        ensures InMemory(Exec(c, events), i, w)
      {
        SecureRun(c, events, i, w);
      }
    }
  }

  // ---------------------------------------------------------------------------
  // What a command does across instances
  // ---------------------------------------------------------------------------

  /** A command to add that reaches the leader puts the workflow in the leader's memory
      and in no other. */
  lemma AddCommandReachesLeader(c: Cluster, i: nat, id: WorkflowId, active: bool, outcome: Outcome, j: nat)
    requires Exclusive(c) && Leads(c, i) && j < |c.instances|
    requires PlacementOf(outcome).Placed?
    ensures var c1 := Apply(c, Deliver(i, AddCommand(id), active, true));
            var c2 := Apply(c1, EndAdd(i, |c.instances[i].pending|, outcome));
            && Exclusive(c2)
            && (id in c2.instances[j].manager.memory <==> j == i)
            && (forall w :: w != id ==> (w in c2.instances[j].manager.memory <==> w in c.instances[j].manager.memory))
  {
    var deliver := Deliver(i, AddCommand(id), active, true);
    var end := EndAdd(i, |c.instances[i].pending|, outcome);
    var c1 := Apply(c, deliver);
    ExclusiveStepIff(c, deliver);
    assert c1.instances[i].manager == c.instances[i].manager;
    var p := Pending(Workflow(id, active), Activate, true);
    assert c1.instances[i].pending[|c.instances[i].pending|] == p;
    ExclusiveStepIff(c1, end);
    var c2 := Apply(c1, end);
    FinishPlaces(c.instances[i].manager, p, outcome);
    assert c2.instances[i].manager == Finish(c.instances[i].manager, p, outcome);
    if j != i {
      assert c2.instances[j] == c.instances[j];
      OneHome(c2, id, i, j);
    }
  }

  // ---------------------------------------------------------------------------
  // Runs that stray or overlap
  // ---------------------------------------------------------------------------

  const ACTIVATES := Found(true, Succeeds(true))

  function Activates(i: nat, w: WorkflowId): Event {
    At(i, Local.EActivate(w, LeadershipChange, ACTIVATES))
  }

  /** An instance that leads and has activated one workflow. */
  function Busy(w: WorkflowId): Instance {
    FRESH.(manager := FRESH.manager.(isLeader := true, memory := {w}), claims := 0)
  }

  lemma FirstLeader(w: WorkflowId)
    ensures Exec(Cluster(None, [FRESH, FRESH]), [Claim(0), Activates(0, w)]) == Cluster(Some(0), [Busy(w), FRESH])
  {
    var c := Cluster(None, [FRESH, FRESH]);
    Runs.ExecTwo(Apply, c, Claim(0), Activates(0, w));
    var c1 := Apply(c, Claim(0));
    assert c1 == Cluster(Some(0), [FRESH.(manager := FRESH.manager.(isLeader := true), claims := 0), FRESH]);
    var m := c1.instances[0].manager;
    assert ActivateWorkflow(m, w, LeadershipChange, ACTIVATES) == m.(memory := {w});
    assert Apply(c1, Activates(0, w)).instances == [Busy(w), FRESH];
  }

  /** The key runs out, a second instance takes it and activates, and the workflow is in
      memory twice until the first instance looks at the key. */
  lemma OverlapExample(w: WorkflowId)
    ensures Exec(Cluster(None, [FRESH, FRESH]),
                 [Claim(0), Activates(0, w)] + ([Expire] + [Claim(1), Activates(1, w)]))
         == Cluster(Some(1), [Busy(w), Busy(w)])
  {
    var c := Cluster(Some(0), [Busy(w), FRESH]);
    var takeover := [Claim(1), Activates(1, w)];
    FirstLeader(w);
    Runs.ExecConcat(Apply, Cluster(None, [FRESH, FRESH]), [Claim(0), Activates(0, w)], [Expire] + takeover);
    Runs.ExecCons(Apply, c, Expire, takeover);
    SecondActivates(w, Busy(w));
  }

  /** The leader itself finds the key vacant and begins to remove; another instance takes
      the key and leads while the first still runs the triggers. */
  lemma SlowRemovalExample(w: WorkflowId)
    ensures var c := Exec(Cluster(Some(0), [Busy(w), FRESH]),
                          [Expire, Check(0, None, [w])] + [Claim(1), Activates(1, w)]);
            && !Leads(c, 0) && Leads(c, 1) && |c.instances| == 2
            && w in c.instances[0].manager.memory && w in c.instances[1].manager.memory
  {
    var c := Cluster(Some(0), [Busy(w), FRESH]);
    Runs.ExecConcat(Apply, c, [Expire, Check(0, None, [w])], [Claim(1), Activates(1, w)]);
    SlowRemovalBegins(w);
    SecondActivates(w, Leaver(w, [], [[w]], 1));
  }

  /** An instance that has stepped down and still has `w` in memory. */
  function Leaver(w: WorkflowId, pending: seq<Pending>, loops: seq<seq<WorkflowId>>, claims: nat): Instance {
    Instance(FRESH.manager.(memory := {w}), pending, loops, claims)
  }

  lemma SlowRemovalBegins(w: WorkflowId)
    ensures Exec(Cluster(Some(0), [Busy(w), FRESH]), [Expire, Check(0, None, [w])])
         == Cluster(None, [Leaver(w, [], [[w]], 1), FRESH])
  {
    var c := Cluster(Some(0), [Busy(w), FRESH]);
    Runs.ExecTwo(Apply, c, Expire, Check(0, None, [w]));
    var c1 := Apply(c, Expire);
    assert StepDown(Busy(w), [w]) == Leaver(w, [], [[w]], 0) by { assert [] + [[w]] == [[w]]; }
    assert Apply(c1, Check(0, None, [w])).instances == [Leaver(w, [], [[w]], 1), FRESH];
  }

  lemma SecondActivates(w: WorkflowId, first: Instance)
    ensures Exec(Cluster(None, [first, FRESH]), [Claim(1), Activates(1, w)]) == Cluster(Some(1), [first, Busy(w)])
  {
    var c := Cluster(None, [first, FRESH]);
    Runs.ExecTwo(Apply, c, Claim(1), Activates(1, w));
    var c1 := Apply(c, Claim(1));
    assert c1 == Cluster(Some(1), [first, FRESH.(manager := FRESH.manager.(isLeader := true), claims := 0)]);
    var m := c1.instances[1].manager;
    assert ActivateWorkflow(m, w, LeadershipChange, ACTIVATES) == m.(memory := {w});
    assert Apply(c1, Activates(1, w)).instances == [first, Busy(w)];
  }

  /** A close function fails after a step-down: the follower keeps running the triggers,
      and nothing will remove them. */
  lemma FailingCloseExample(w: WorkflowId)
    ensures var c := Exec(Cluster(Some(0), [Busy(w), FRESH]),
                          [Expire, Claim(1), Check(0, Some(1), [w]), RemoveNext(0, 0, false)]);
            && |c.instances| == 2 && !Leads(c, 0) && Leads(c, 1)
            && w in c.instances[0].manager.memory && c.instances[0].loops == [[]]
  {
    var c := Cluster(Some(0), [Busy(w), FRESH]);
    Runs.ExecFour(Apply, c, Expire, Claim(1), Check(0, Some(1), [w]), RemoveNext(0, 0, false));
    var c3 := Apply(Apply(Apply(c, Expire), Claim(1)), Check(0, Some(1), [w]));
    assert c3.instances[0].loops == [[w]];
    assert [[w]][0 := []] == [[]];
  }

  /** An activation that began as leader ends after the step-down, and a follower is
      left running the workflow's triggers. */
  lemma StaleRoleExample(w: WorkflowId)
    ensures var c := Exec(Cluster(Some(0), [Busy(w), FRESH]),
                          [BeginAdd(0, Workflow("late", true), Activate), Check(0, Some(1), [w])]
                          + [RemoveNext(0, 0, true), EndAdd(0, 0, Succeeds(true))]);
            |c.instances| == 2 && !Leads(c, 0) && "late" in c.instances[0].manager.memory &&
              c.instances[0].loops == [[]]
  {
    var c := Cluster(Some(0), [Busy(w), FRESH]);
    var begin, check := BeginAdd(0, Workflow("late", true), Activate), Check(0, Some(1), [w]);
    var remove, end := RemoveNext(0, 0, true), EndAdd(0, 0, Succeeds(true));
    Runs.ExecConcat(Apply, c, [begin, check], [remove, end]);
    StaleRoleBegins(w);
    StaleRoleEnds(w);
  }

  const LATE := Pending(Workflow("late", true), Activate, true)

  lemma StaleRoleBegins(w: WorkflowId)
    ensures Exec(Cluster(Some(0), [Busy(w), FRESH]),
                 [BeginAdd(0, Workflow("late", true), Activate), Check(0, Some(1), [w])])
         == Cluster(Some(0), [Leaver(w, [LATE], [[w]], 0), FRESH])
  {
    var c := Cluster(Some(0), [Busy(w), FRESH]);
    var begin, check := BeginAdd(0, Workflow("late", true), Activate), Check(0, Some(1), [w]);
    Runs.ExecTwo(Apply, c, begin, check);
    assert Begin(Busy(w), LATE.workflow, LATE.mode) == Busy(w).(pending := [LATE]) by { assert [] + [LATE] == [LATE]; }
    assert Apply(c, begin).instances == [Busy(w).(pending := [LATE]), FRESH];
    assert StepDown(Busy(w).(pending := [LATE]), [w]) == Leaver(w, [LATE], [[w]], 0) by { assert [] + [[w]] == [[w]]; }
    assert Apply(Apply(c, begin), check).instances == [Leaver(w, [LATE], [[w]], 0), FRESH];
  }

  lemma StaleRoleEnds(w: WorkflowId)
    ensures var c := Exec(Cluster(Some(0), [Leaver(w, [LATE], [[w]], 0), FRESH]),
                          [RemoveNext(0, 0, true), EndAdd(0, 0, Succeeds(true))]);
            |c.instances| == 2 && !Leads(c, 0) && "late" in c.instances[0].manager.memory &&
              c.instances[0].loops == [[]]
  {
    var c := Cluster(Some(0), [Leaver(w, [LATE], [[w]], 0), FRESH]);
    Runs.ExecTwo(Apply, c, RemoveNext(0, 0, true), EndAdd(0, 0, Succeeds(true)));
    var c1 := Apply(c, RemoveNext(0, 0, true));
    assert [w][1..] == [] && [[w]][0 := []] == [[]];
    assert c1.instances[0] == Instance(FRESH.manager, [LATE], [[]], 0) by { assert {w} - {w} == {}; }
    FinishPlaces(FRESH.manager, LATE, Succeeds(true));
  }

  /** An instance that takes the key back while its removal is still under way removes
      what it has just activated again, and leads without it. */
  lemma ReclaimExample(w: WorkflowId)
    ensures var c := Exec(Cluster(None, [Busy(w), FRESH]),
                          [Check(0, None, [w]), Claim(0)] + [Activates(0, w), RemoveNext(0, 0, true)]);
            |c.instances| == 2 && Leads(c, 0) && w !in c.instances[0].manager.memory
  {
    Runs.ExecConcat(Apply, Cluster(None, [Busy(w), FRESH]), [Check(0, None, [w]), Claim(0)],
                    [Activates(0, w), RemoveNext(0, 0, true)]);
    ReclaimBegins(w);
    ReclaimEnds(w);
  }

  /** A leader that has `w` in memory, and a removal under way that will come to it. */
  function Reclaimer(w: WorkflowId): Instance {
    Busy(w).(loops := [[w]])
  }

  lemma ReclaimBegins(w: WorkflowId)
    ensures Exec(Cluster(None, [Busy(w), FRESH]), [Check(0, None, [w]), Claim(0)])
         == Cluster(Some(0), [Reclaimer(w), FRESH])
  {
    var c := Cluster(None, [Busy(w), FRESH]);
    Runs.ExecTwo(Apply, c, Check(0, None, [w]), Claim(0));
    assert StepDown(Busy(w), [w]) == Leaver(w, [], [[w]], 0) by { assert [] + [[w]] == [[w]]; }
    var c1 := Apply(c, Check(0, None, [w]));
    assert c1 == Cluster(None, [Leaver(w, [], [[w]], 1), FRESH]);
    assert Apply(c1, Claim(0)).instances == [Reclaimer(w), FRESH];
  }

  lemma ReclaimEnds(w: WorkflowId)
    ensures var c := Exec(Cluster(Some(0), [Reclaimer(w), FRESH]), [Activates(0, w), RemoveNext(0, 0, true)]);
            |c.instances| == 2 && Leads(c, 0) && w !in c.instances[0].manager.memory
  {
    var c := Cluster(Some(0), [Reclaimer(w), FRESH]);
    Runs.ExecTwo(Apply, c, Activates(0, w), RemoveNext(0, 0, true));
    var m := Reclaimer(w).manager;
    assert ActivateWorkflow(m, w, LeadershipChange, ACTIVATES) == m by { assert {w} + {w} == {w}; }
    assert Apply(c, Activates(0, w)).instances == [Reclaimer(w), FRESH];
  }

  /** A leader dies and comes back under the same host id: it holds the key that it then
      renews, and nobody leads. */
  lemma OrphanedKeyExample(w: WorkflowId)
    ensures var c := Exec(Cluster(Some(0), [Busy(w), FRESH]),
                          [Crash(0, true), Claim(0), Check(0, Some(0), []), Claim(1)]);
            Leaderless(c) && c.key == Some(0)
  {
    var c := Cluster(Some(0), [Busy(w), FRESH]);
    Runs.ExecFour(Apply, c, Crash(0, true), Claim(0), Check(0, Some(0), []), Claim(1));
    var c1 := Apply(c, Crash(0, true));
    assert c1 == Cluster(Some(0), [FRESH, FRESH]);
    var c2 := Apply(c1, Claim(0));
    assert Leaderless(c1);
    LeaderlessStepIff(c1, Claim(0));
    LeaderlessStepIff(c2, Check(0, Some(0), []));
    LeaderlessStepIff(Apply(c2, Check(0, Some(0), [])), Claim(1));
  }
}
