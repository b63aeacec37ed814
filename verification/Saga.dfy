/** The three services side by side.  Every step is one database transaction of one service,
    triggered by a user, by the payment processor, or by the delivery of an event that some
    service has committed.  Delivery is unrestricted here: any committed event may be handled
    by any service at any time and any number of times, so whatever holds of all runs of this
    machine holds under every reordering, duplication, retry and replay. */
module Saga {
  import opened Events
  import Tickets
  import Orders
  import Payments

  datatype Service = AtTickets | AtOrders | AtPayments

  /** `issued` are the UUIDs handed out so far; a new one is never among them. */
  datatype Core = Core(tickets: Tickets.Db, orders: Orders.Db, payments: Payments.Db, now: int, issued: set<Uuid>)

  function Initial(now: int): Core {
    Core(Tickets.EMPTY, Orders.EMPTY, Payments.EMPTY, now, {})
  }

  /** Parameters that a step's transaction draws from its surroundings (generated UUIDs, its
      NOW(), the row Postgres picked, rows locked by others) are part of the step. */
  datatype Step =
    | Tick(to: int)
    | CreateTicket(title: string, price: int, userId: string, ticketId: Uuid, eventId: Uuid)
    | UpdateTicket(id: Uuid, title: string, price: int, userId: string, eventId: Uuid)
    | ReserveTicket(txNow: int, expiresAt: int, ticketId: Uuid, userId: string, pick: Option<Uuid>, orderId: Uuid,
                    eventId: Uuid)
    | CancelOrder(orderId: Uuid, userId: string, eventId: Uuid)
    | CreatePayment(orderId: Uuid, userId: string, existing: Option<Uuid>, paymentId: Uuid, eventId: Uuid)
    | ResolvePayment(outcome: Payments.ProcessorOutcome, skip: set<Uuid>, pick: Option<Uuid>, eventId: Uuid)
    | Handle(at: Service, event: Event, eventId: Uuid)

  /** The UUIDs a step's transaction generates, each only once. */
  function Generated(s: Step): seq<Uuid> {
    match s
    case Tick(_) => []
    case CreateTicket(_, _, _, ticketId, eventId) => [ticketId, eventId]
    case UpdateTicket(_, _, _, _, eventId) => [eventId]
    case ReserveTicket(_, _, _, _, _, orderId, eventId) => [orderId, eventId]
    case CancelOrder(_, _, eventId) => [eventId]
    case CreatePayment(_, _, _, paymentId, eventId) => [paymentId, eventId]
    case ResolvePayment(_, _, _, eventId) => [eventId]
    case Handle(_, _, eventId) => [eventId]
  }

  ghost predicate Fresh(c: Core, ids: seq<Uuid>) {
    && (forall i | 0 <= i < |ids| :: ids[i] !in c.issued)
    && (|ids| == 2 ==> ids[0] != ids[1])
  }

  /** `e` is in the committed log of the service that emits it.  The Expiration service has no
      log: it reuses the order id as the event id. */
  predicate Emitted(c: Core, e: Event) {
    if e.Ticket?() then e in c.tickets.outbox
    else if e.Order?() then e in c.orders.outbox
    else if e.Payment?() then e in c.payments.outbox
    else e.eventId == e.orderId && e.orderId in c.orders.orders
  }

  ghost predicate Enabled(c: Core, s: Step) {
    && Fresh(c, Generated(s))
    && match s
       case Tick(to) => to >= c.now
       case ReserveTicket(txNow, _, ticketId, _, pick, _, _) =>
         txNow <= c.now && Orders.IsBlockingOrder(c.orders.orders, ticketId, txNow, pick)
       case CreatePayment(orderId, _, existing, _, _) => Payments.IsPaymentOf(c.payments, orderId, existing)
       case ResolvePayment(_, skip, pick, _) => Payments.IsNextPending(c.payments, skip, pick)
       case Handle(_, event, _) => Emitted(c, event)
       case _ => true
  }

  ghost function Issue(c: Core, s: Step): Core {
    c.(issued := c.issued + (set id | id in Generated(s)))
  }

  ghost function Apply(c: Core, s: Step): Core
    requires Enabled(c, s)
  {
    match s
    case Tick(to) => c.(now := to)
    case CreateTicket(title, price, userId, ticketId, eventId) =>
      c.(tickets := Tickets.CreateTicket(c.tickets, title, price, userId, ticketId, eventId).After(c.tickets))
    case UpdateTicket(id, title, price, userId, eventId) =>
      c.(tickets := Tickets.UpdateTicket(c.tickets, id, title, price, userId, eventId).After(c.tickets))
    case ReserveTicket(txNow, expiresAt, ticketId, userId, pick, orderId, eventId) =>
      var tx := Orders.ReserveTicketForUser(c.orders, txNow, expiresAt, ticketId, userId, pick, orderId, eventId);
      c.(orders := tx.After(c.orders))
    case CancelOrder(orderId, userId, eventId) =>
      c.(orders := Orders.CancelByIDAndUser(c.orders, orderId, userId, eventId).After(c.orders))
    case CreatePayment(orderId, userId, existing, paymentId, eventId) =>
      c.(payments := Payments.Create(c.payments, orderId, userId, existing, paymentId, eventId).After(c.payments))
    case ResolvePayment(outcome, skip, pick, eventId) =>
      c.(payments := Payments.ResolveNextPending(c.payments, outcome, skip, pick, eventId).After(c.payments))
    case Handle(at, event, eventId) =>
      match at
      case AtTickets => c.(tickets := Tickets.Handle(c.tickets, event, eventId).After(c.tickets))
      case AtOrders => c.(orders := Orders.Handle(c.orders, event, eventId).After(c.orders))
      case AtPayments => c.(payments := Payments.Handle(c.payments, event).After(c.payments))
  }

  /** A step that is not possible in `c` leaves it alone, so every sequence of steps is a run. */
  ghost function Next(c: Core, s: Step): Core {
    if Enabled(c, s) then Issue(Apply(c, s), s) else c
  }

  ghost function Exec(c: Core, steps: seq<Step>): Core {
    if steps == [] then c else Next(Exec(c, steps[..|steps| - 1]), steps[|steps| - 1])
  }

  ghost predicate Reachable(c: Core) {
    exists now: int, steps: seq<Step> :: c == Exec(Initial(now), steps)
  }

  lemma {:induction false} ExecConcat(c: Core, first: seq<Step>, second: seq<Step>)
    ensures Exec(c, first + second) == Exec(Exec(c, first), second)
  {
    if second == [] {
      assert first + second == first;
    } else {
      var front := second[..|second| - 1];
      assert (first + second)[..|first + second| - 1] == first + front;
      ExecConcat(c, first, front);
    }
  }

  lemma {:induction false} ReachableExec(c: Core, steps: seq<Step>)
    requires Reachable(c)
    ensures Reachable(Exec(c, steps))
  {
    var now: int, before: seq<Step> :| c == Exec(Initial(now), before);
    ExecConcat(Initial(now), before, steps);
  }

  /** The events a service has recorded as processed. */
  function Processed(c: Core, at: Service): set<Uuid> {
    match at
    case AtTickets => c.tickets.processed
    case AtOrders => c.orders.processed
    case AtPayments => c.payments.processed
  }
}
