/** Admission of executions by mode: `ConcurrencyQueue` and the part of
    `ConcurrencyControlService` that routes modes to queues. */
module ConcurrencyControl {
  import opened Wrappers

  type Id = string

  datatype Mode = Cli | Error | Integrated | Internal | Manual | Retry | Trigger | Webhook | Evaluation

  datatype QueueType = ProductionQueue | EvaluationQueue

  /** `getQueue`: the modes with a limit. */
  function QueueOf(mode: Mode): Option<QueueType> {
    match mode
    case Trigger | Webhook => Some(ProductionQueue)
    case Evaluation => Some(EvaluationQueue)
    case _ => None
  }

  /** An `add` that has asked for capacity and not yet stored its entry. */
  datatype Ticket = Ticket(id: Id, mode: Mode)

  /** `capacity` goes below zero by one for each waiting ticket. */
  datatype Queue = Queue(capacity: int, waiting: seq<Ticket>)

  /** `admitted` are the tickets whose `throttle` promise has resolved. */
  datatype Control = Control(enabled: bool, queues: map<QueueType, Queue>, admitted: seq<Ticket>)

  // ---------------------------------------------------------------------------
  // One queue
  // ---------------------------------------------------------------------------

  /** `resolveNext`: the queue afterwards and the ticket whose promise resolves. */
  function Shifted(q: Queue): (Queue, Option<Ticket>) {
    if q.waiting == [] then (q, None) else (q.(waiting := q.waiting[1..]), Some(q.waiting[0]))
  }

  /** `enqueue`: a ticket that finds capacity goes straight through. */
  function Enqueued(q: Queue, ticket: Ticket): (Queue, Option<Ticket>) {
    if q.capacity - 1 < 0 then (Queue(q.capacity - 1, q.waiting + [ticket]), None)
    else (Queue(q.capacity - 1, q.waiting), Some(ticket))
  }

  function Dequeued(q: Queue): (Queue, Option<Ticket>) {
    Shifted(Queue(q.capacity + 1, q.waiting))
  }

  /** `findIndex(item => item.executionId === executionId)`, or the length. */
  function IndexOf(waiting: seq<Ticket>, id: Id): (i: nat)
    ensures i <= |waiting|
    ensures i < |waiting| ==> waiting[i].id == id
    ensures forall j :: 0 <= j < i ==> waiting[j].id != id
  {
    if waiting == [] || waiting[0].id == id then 0 else 1 + IndexOf(waiting[1..], id)
  }

  /** `remove`, used to stop an execution that is still queued. */
  function Removed(q: Queue, id: Id): (Queue, Option<Ticket>) {
    var i := IndexOf(q.waiting, id);
    if i == |q.waiting| then (q, None)
    else Shifted(Queue(q.capacity + 1, q.waiting[..i] + q.waiting[i + 1..]))
  }

  /** The queue as the source keeps it: an object that is updated in place. */
  class ConcurrencyQueue {
    var capacity: int
    var queue: seq<Ticket>

    constructor (capacity: int)
      ensures View() == Queue(capacity, [])
    {
      this.capacity := capacity;
      queue := [];
    }

    function View(): Queue
      reads this
    {
      Queue(capacity, queue)
    }

    method Enqueue(ticket: Ticket) returns (through: Option<Ticket>)
      modifies this
      ensures (View(), through) == Enqueued(old(View()), ticket)
    {
      capacity := capacity - 1;
      if capacity < 0 {
        queue := queue + [ticket];
        return None;
      }
      return Some(ticket);
    }

    method Dequeue() returns (released: Option<Ticket>)
      modifies this
      ensures (View(), released) == Dequeued(old(View()))
    {
      capacity := capacity + 1;
      released := ResolveNext();
    }

    method Remove(id: Id) returns (released: Option<Ticket>)
      modifies this
      ensures (View(), released) == Removed(old(View()), id)
    {
      var index := 0;
      while index < |queue| && queue[index].id != id
        invariant 0 <= index <= |queue|
        invariant forall j :: 0 <= j < index ==> queue[j].id != id
      {
        index := index + 1;
      }
      released := None;
      if index < |queue| {
        queue := queue[..index] + queue[index + 1..];
        capacity := capacity + 1;
        released := ResolveNext();
      }
    }

    method ResolveNext() returns (released: Option<Ticket>)
      modifies this`queue
      ensures (View(), released) == Shifted(old(View()))
    {
      if |queue| == 0 {
        return None;
      }
      released := Some(queue[0]);
      queue := queue[1..];
    }
  }

  // ---------------------------------------------------------------------------
  // Routing by mode
  // ---------------------------------------------------------------------------

  /** Whether `mode` is limited, and so has a queue. */
  predicate Limited(c: Control, mode: Mode) {
    c.enabled && QueueOf(mode).Some? && QueueOf(mode).value in c.queues
  }

  function Put(c: Control, t: QueueType, step: (Queue, Option<Ticket>)): Control {
    Control(c.enabled, c.queues[t := step.0], if step.1.Some? then c.admitted + [step.1.value] else c.admitted)
  }

  function Throttle(c: Control, ticket: Ticket): Control {
    if !Limited(c, ticket.mode) then c.(admitted := c.admitted + [ticket])
    else
      var t := QueueOf(ticket.mode).value;
      Put(c, t, Enqueued(c.queues[t], ticket))
  }

  function Release(c: Control, mode: Mode): Control {
    if !Limited(c, mode) then c
    else
      var t := QueueOf(mode).value;
      Put(c, t, Dequeued(c.queues[t]))
  }

  function Remove(c: Control, mode: Mode, id: Id): Control {
    if !Limited(c, mode) then c
    else
      var t := QueueOf(mode).value;
      Put(c, t, Removed(c.queues[t], id))
  }

  // ---------------------------------------------------------------------------
  // Accounting
  // ---------------------------------------------------------------------------

  function CountTickets(tickets: seq<Ticket>, t: QueueType): nat {
    if tickets == [] then 0
    else (if QueueOf(tickets[0].mode) == Some(t) then 1 else 0) + CountTickets(tickets[1..], t)
  }

  lemma {:induction false} CountTicketsConcat(a: seq<Ticket>, b: seq<Ticket>, t: QueueType)
    ensures CountTickets(a + b, t) == CountTickets(a, t) + CountTickets(b, t)
  {
    if a == [] {
      assert a + b == b;
    } else {
      assert (a + b)[0] == a[0] && (a + b)[1..] == a[1..] + b;
      CountTicketsConcat(a[1..], b, t);
    }
  }

  lemma CountTicketsPush(a: seq<Ticket>, x: Ticket, t: QueueType)
    ensures CountTickets(a + [x], t) == CountTickets(a, t) + if QueueOf(x.mode) == Some(t) then 1 else 0
  {
    CountTicketsConcat(a, [x], t);
    assert [x][1..] == [];
  }

  lemma CountTicketsDrop(a: seq<Ticket>, i: nat, t: QueueType)
    requires i < |a|
    ensures CountTickets(a, t) == CountTickets(a[..i] + a[i + 1..], t) + if QueueOf(a[i].mode) == Some(t) then 1 else 0
  {
    assert a == (a[..i] + [a[i]]) + a[i + 1..];
    CountTicketsConcat(a[..i] + [a[i]], a[i + 1..], t);
    CountTicketsPush(a[..i], a[i], t);
    CountTicketsConcat(a[..i], a[i + 1..], t);
  }

  type Limits = map<QueueType, nat>

  /** Tickets wait in the queue of their own mode. */
  ghost predicate Routed(c: Control) {
    forall t, i :: t in c.queues && 0 <= i < |c.queues[t].waiting| ==> QueueOf(c.queues[t].waiting[i].mode) == Some(t)
  }

  /** Every permit of the limit is in the capacity, with an admitted ticket or among
      the `held` ones, and nobody waits while there is room. */
  ghost predicate Balanced(c: Control, limit: nat, t: QueueType, held: nat) {
    t in c.queues ==>
      var q := c.queues[t];
      && q.capacity + |q.waiting| + CountTickets(c.admitted, t) + held == limit
      && (q.waiting != [] ==> q.capacity + |q.waiting| <= 0)
  }

  function InFlight(c: Control, t: QueueType, held: nat): nat {
    CountTickets(c.admitted, t) + held
  }

  ghost predicate WithinLimit(c: Control, limit: nat, t: QueueType, held: nat) {
    t in c.queues ==> InFlight(c, t, held) <= limit
  }

  function Share(mode: Mode, t: QueueType): nat {
    if QueueOf(mode) == Some(t) then 1 else 0
  }

  lemma ThrottleBalanced(c: Control, ticket: Ticket, limit: nat, t: QueueType, held: nat)
    requires Routed(c) && Balanced(c, limit, t, held) && c.enabled
    ensures Routed(Throttle(c, ticket)) && Balanced(Throttle(c, ticket), limit, t, held)
    ensures WithinLimit(c, limit, t, held) ==> WithinLimit(Throttle(c, ticket), limit, t, held)
  {
    if Limited(c, ticket.mode) {
      var u := QueueOf(ticket.mode).value;
      assert forall x :: x in c.queues[u].waiting ==> QueueOf(x.mode) == Some(u);
      PutEffect(c, u, Enqueued(c.queues[u], ticket), t);
    } else {
      CountTicketsPush(c.admitted, ticket, t);
    }
  }

  /** Giving back the permit of one finished run. */
  lemma ReleaseBalanced(c: Control, mode: Mode, limit: nat, t: QueueType, held: nat)
    requires Routed(c) && Balanced(c, limit, t, held + Share(mode, t)) && c.enabled
    ensures Routed(Release(c, mode)) && Balanced(Release(c, mode), limit, t, held)
    ensures WithinLimit(c, limit, t, held + Share(mode, t)) ==> WithinLimit(Release(c, mode), limit, t, held)
  {
    if Limited(c, mode) {
      var u := QueueOf(mode).value;
      assert forall x :: x in c.queues[u].waiting ==> QueueOf(x.mode) == Some(u);
      PutEffect(c, u, Dequeued(c.queues[u]), t);
    }
  }

  /** The ticket of an `add` becomes the permit of its run. */
  lemma AdmitBalanced(c: Control, k: nat, limit: nat, t: QueueType, held: nat)
    requires k < |c.admitted| && Balanced(c, limit, t, held)
    ensures var c' := c.(admitted := c.admitted[..k] + c.admitted[k + 1..]);
            && Balanced(c', limit, t, held + Share(c.admitted[k].mode, t))
            && InFlight(c', t, held + Share(c.admitted[k].mode, t)) == InFlight(c, t, held)
  {
    CountTicketsDrop(c.admitted, k, t);
  }

  /** Removing a queued ticket while another one waits resolves that other one
      although no permit came back. */
  ghost predicate RemovesPastAnother(c: Control, mode: Mode, id: Id, t: QueueType) {
    && Limited(c, mode) && QueueOf(mode) == Some(t)
    && IndexOf(c.queues[t].waiting, id) < |c.queues[t].waiting|
    && |c.queues[t].waiting| >= 2
  }

  /** Any operation on one queue: what it does to the counts is what it does to
      that queue and to the ticket it lets through. */
  lemma PutEffect(c: Control, u: QueueType, step: (Queue, Option<Ticket>), t: QueueType)
    requires u in c.queues && Routed(c)
    requires forall x :: x in step.0.waiting ==> QueueOf(x.mode) == Some(u)
    requires step.1.Some? ==> QueueOf(step.1.value.mode) == Some(u)
    ensures Routed(Put(c, u, step))
    ensures CountTickets(Put(c, u, step).admitted, t)
         == CountTickets(c.admitted, t) + if u == t && step.1.Some? then 1 else 0
  {
    if step.1.Some? {
      CountTicketsPush(c.admitted, step.1.value, t);
    }
  }

  lemma RemoveBalanced(c: Control, mode: Mode, id: Id, limit: nat, t: QueueType, held: nat)
    requires Routed(c) && Balanced(c, limit, t, held) && c.enabled
    ensures Routed(Remove(c, mode, id)) && Balanced(Remove(c, mode, id), limit, t, held)
    ensures InFlight(Remove(c, mode, id), t, held)
         == InFlight(c, t, held) + if RemovesPastAnother(c, mode, id, t) then 1 else 0
    ensures WithinLimit(c, limit, t, held) && t in c.queues ==>
              (WithinLimit(Remove(c, mode, id), limit, t, held) <==> !RemovesPastAnother(c, mode, id, t))
  {
    if Limited(c, mode) {
      var u := QueueOf(mode).value;
      var w := c.queues[u].waiting;
      assert forall x :: x in w ==> QueueOf(x.mode) == Some(u);
      PutEffect(c, u, Removed(c.queues[u], id), t);
    }
  }
}
