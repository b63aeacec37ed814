/** What the event handlers of the three services answer. */
module Deliveries {
  import opened Events
  import opened Saga
  import opened Invariants
  import opened Consumers
  import Tickets
  import Orders
  import Payments
  import PaymentSteps
  import Money
  import Projections

  /** A ticket snapshot that no consumer can use. */
  predicate Malformed(e: Event) {
    match e
    case TicketCreated(_, version, _, title, price, _) => Blank(title) || price <= 0 || version < 0
    case TicketUpdated(_, version, _, title, price, _) => Blank(title) || price <= 0 || version < 0
    case OrderCreated(_, _, status, userId, _, version, _, price) =>
      Blank(userId) || price <= 0 || version < 0 || status != Created
    case OrderCanceled(_, _, version, _) => version < 0
    case _ => false
  }

  /** Orders refuses an order event and a malformed ticket event; of the others, only a ticket
      event not yet processed that is more than one version ahead, and nothing else at all. */
  lemma OrdersAnswers(db: Orders.Db, e: Event, newEventId: Uuid)
    ensures var tx := Orders.Handle(db, e, newEventId);
            if e.Order?() then tx == RolledBack(UnsupportedSubject)
            else if e.Ticket?() && Malformed(e) then tx == RolledBack(InvalidEvent)
            else if e.Ticket?() && e.eventId !in db.processed && e.version > Projections.Level(db, e.ticketId)
            then tx == RolledBack(VersionGap)
            else tx.Committed? && tx.db.processed == db.processed + {e.eventId}
  {
  }

  /** A ticket event changes no order and announces nothing. */
  lemma TicketEventsTouchNoOrder(db: Orders.Db, e: Event, newEventId: Uuid)
    requires e.Ticket?()
    ensures var db' := Orders.Handle(db, e, newEventId).After(db); db'.orders == db.orders && db'.outbox == db.outbox
  {
  }

  /** Tickets refuses what is no order event, and a malformed one. */
  lemma TicketsRefusals(db: Tickets.Db, e: Event, newEventId: Uuid)
    ensures Tickets.Handle(db, e, newEventId) == RolledBack(UnsupportedSubject) <==> !e.Order?()
    ensures Tickets.Handle(db, e, newEventId) == RolledBack(InvalidEvent) <==> e.Order?() && Malformed(e)
  {
  }

  lemma PaymentsRefusals(db: Payments.Db, e: Event)
    ensures Payments.Handle(db, e) == RolledBack(UnsupportedSubject) <==> !e.Order?()
    ensures Payments.Handle(db, e) == RolledBack(InvalidEvent) <==> e.Order?() && Malformed(e)
  {
  }

  /** Payments accepts every creation that Orders emitted, first or again; of the cancellations, the
      processed ones and those of version 1 of orders it has heard of.  The others are version gaps. */
  lemma PaymentsAnswers(c: Core, e: Event)
    requires Reachable(c) && e in c.orders.outbox && e.Order?()
    ensures var accepted := e.OrderCreated? || e.eventId in c.payments.processed
            || (e.version == 1 && e.orderId in c.payments.orders);
            && (accepted ==> Payments.Handle(c.payments, e).Committed?
                             && Payments.Handle(c.payments, e).db.processed == c.payments.processed + {e.eventId})
            && (!accepted ==> Payments.Handle(c.payments, e) == RolledBack(VersionGap))
  {
    hide Reachable, TicketLog, OrderLog, PaymentLog, Identifiers, Markers, TicketProjection, OrderProjection,
         Invariants.Settlement, Exclusive;
    PaymentSteps.ReachableInv(c);
    EmittedOrderEvent(c, e);
    if e.OrderCanceled? && e.orderId in c.payments.orders && e.eventId !in c.payments.processed {
      Money.CancellationMeets(c, e);
    }
  }

  lemma EmittedOrderEvent(c: Core, e: Event)
    requires OrderLog(c.orders) && OrderProjection(c.orders, c.payments) && e in c.orders.outbox && e.Order?()
    ensures ValidOrderEvent(e) && (e.OrderCreated? ==> e.version == 0)
    ensures e.orderId in c.payments.orders ==> c.payments.orders[e.orderId].version >= 0
    ensures e.OrderCanceled? ==> e.version == 1 || e.version == 2
  {
    assert TrueOrderEvent(c.orders.orders, e);
    assert OrderRow(c.orders, e.orderId);
    assert e.orderId in c.payments.orders ==> OrderSnapshot(c.orders, c.payments.orders[e.orderId], e.orderId);
  }

  // ----- What the consumers make of the answers -----

  /** Which failures are parked at once, and from the sixth delivery on all. */
  lemma ParkedAtOnce(d: Durable, f: Failure, count: nat)
    ensures Parks(d, f, count) <==>
            || f == InvalidEvent
            || (f == UnsupportedSubject
                && d in {OrdersTicketProjection, TicketsOrderReservation, TicketsOrderCancellation,
                                                 PaymentsOrderProjection})
            || count >= 6
  {
  }

  /** The failure class a dead letter is labelled with. */
  lemma LabelledAs(d: Durable, f: Failure)
    ensures ClassOf(d, f) == ClassInvalid <==> Parks(d, f, 1)
    ensures ClassOf(d, f) == ClassVersionGap <==>
            f == VersionGap && (d == OrdersTicketProjection || d == PaymentsOrderProjection)
    ensures ClassOf(d, f) == ClassReservationPending <==>
            f == ReservationPending && (d == TicketsOrderReservation || d == TicketsOrderCancellation)
  {
  }

  /** Which failures are asked for again after a while: one second for a cancellation ahead of its
      creation, and for a ticket event ahead of its predecessors 1, 2, 4, 8, 16, 16, ... seconds. */
  lemma RetriedLater(d: Durable, f: Failure, count: nat)
    requires count >= 1
    ensures RetryDelay(d, f, count)
            == if f == VersionGap && d == OrdersTicketProjection then
                 Some(if count == 1 then 1 else if count == 2 then 2 else if count == 3 then 4 else if count == 4
                      then 8 else 16)
               else if f == ReservationPending && (d == TicketsOrderReservation || d == TicketsOrderCancellation)
                 then Some(1)
               else None
  {
  }

  /** A malformed event is parked at its very first delivery, by every consumer that gets it, and
      by a working queue and acknowledgment settled with it. */
  lemma MalformedIsParkedAtOnce(c: Core, d: Durable, e: Event, newEventId: Uuid)
    requires Malformed(e) && d in {OrdersTicketProjection, TicketsOrderReservation, TicketsOrderCancellation,
                                   PaymentsOrderProjection}
    requires e.Ticket?() <==> d == OrdersTicketProjection
    ensures var answer := match d
                          case OrdersTicketProjection => Orders.Handle(c.orders, e, newEventId).Result()
                          case PaymentsOrderProjection => Payments.Handle(c.payments, e).Result()
                          case _ => Tickets.Handle(c.tickets, e, newEventId).Result();
            answer == Failed(InvalidEvent) && Settle(d, answer, 1, true, true) == Consumers.Settlement(true, true)
  {
    hide Orders.Handle, Tickets.Handle, Payments.Handle;
    OrdersAnswers(c.orders, e, newEventId);
    TicketsRefusals(c.tickets, e, newEventId);
    PaymentsRefusals(c.payments, e);
    ParkedAtOnce(d, InvalidEvent, 1);
  }
}
