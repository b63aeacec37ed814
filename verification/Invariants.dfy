/** What every reachable state of the saga satisfies.  The preservation proofs are in
    TicketSteps, OrderSteps and PaymentSteps. */
module Invariants {
  import opened Events
  import opened Saga
  import Tickets
  import Orders
  import Payments

  // ----- Logs -----

  /** The events about ticket `t`, in sequence order. */
  function History(log: seq<Event>, t: Uuid): seq<Event> {
    if log == [] then []
    else
      var last := log[|log| - 1];
      var rest := History(log[..|log| - 1], t);
      if last.Ticket?() && last.ticketId == t then rest + [last] else rest
  }

  predicate Shows(e: Event, row: Tickets.Ticket)
    requires e.Ticket?()
  {
    e.title == row.title && e.price == row.price && e.userId == row.userId && e.version == row.version
  }

  /** `h` has exactly one event per version 0..row.version, in order, the first a TicketCreated
      and the rest TicketUpdated, and the last is a snapshot of `row`. */
  ghost predicate GapFree(row: Tickets.Ticket, id: Uuid, h: seq<Event>) {
    && row.id == id && row.price > 0 && !Blank(row.title)
    && row.version >= 0 && |h| == row.version + 1
    && (forall k | 0 <= k < |h| ::
        h[k].Ticket?() && h[k].ticketId == id && h[k].version == k && (h[k].TicketCreated? <==> k == 0))
    && Shows(h[row.version], row)
  }

  ghost predicate TicketLog(t: Tickets.Db) {
    && (forall id | id in t.tickets :: GapFree(t.tickets[id], id, History(t.outbox, id)))
    && (forall e | e in t.outbox :: ValidTicketEvent(e) && e.ticketId in t.tickets)
  }

  predicate LifecycleVersion(o: Orders.Order) {
    match o.status
    case Created => o.version == 0
    case AwaitingPayment => o.version == 1
    case Canceled => o.version == 1 || o.version == 2
    case Complete => o.version == 1 || o.version == 2
  }

  ghost predicate HasCreated(log: seq<Event>, o: Uuid) {
    exists e :: e in log && e.OrderCreated? && e.orderId == o
  }

  ghost predicate HasCanceled(log: seq<Event>, o: Uuid) {
    exists e :: e in log && e.OrderCanceled? && e.orderId == o
  }

  /** No two entries are the same kind of event about the same order. */
  ghost predicate OncePerOrder(log: seq<Event>) {
    forall i, j | 0 <= i < j < |log| ::
      log[i].Order?() && log[j].Order?() && log[i].orderId == log[j].orderId ==>
        log[i].OrderCreated? != log[j].OrderCreated?
  }

  /** An order event agrees with the row of its order. */
  ghost predicate TrueOrderEvent(orders: map<Uuid, Orders.Order>, e: Event) {
    && ValidOrderEvent(e) && e.orderId in orders
    && var o := orders[e.orderId];
       && e.ticketId == o.ticketId
       && (e.OrderCreated? ==>
             e.status == Created && e.userId == o.userId && e.expiresAt == o.expiresAt && e.version == 0)
       && (e.OrderCanceled? ==> o.status == Canceled && e.version == o.version)
  }

  ghost predicate OrderRow(db: Orders.Db, id: Uuid) {
    id in db.orders && var o := db.orders[id];
    && o.id == id && LifecycleVersion(o) && o.ticketId in db.tickets && !Blank(o.userId)
    && HasCreated(db.outbox, id)
    && (o.status == Canceled ==> HasCanceled(db.outbox, id))
  }

  ghost predicate OrderLog(db: Orders.Db) {
    && (forall id | id in db.orders :: OrderRow(db, id))
    && (forall e | e in db.outbox :: TrueOrderEvent(db.orders, e))
    && OncePerOrder(db.outbox)
  }

  ghost predicate HasPaymentCreated(log: seq<Event>, p: Payments.Payment) {
    exists e :: e in log && e.PaymentCreated? && e.paymentId == p.id && e.orderId == p.orderId
  }

  ghost predicate HasResult(log: seq<Event>, p: Payments.Payment) {
    exists e :: e in log && e.PaymentResult?() && e.paymentId == p.id && e.orderId == p.orderId
             && (e.PaymentSucceeded? <==> p.status == Payments.Succeeded)
  }

  ghost predicate OncePerPayment(log: seq<Event>) {
    forall i, j | 0 <= i < j < |log| ::
      log[i].Payment?() && log[j].Payment?() && log[i].paymentId == log[j].paymentId ==>
        log[i].PaymentCreated? != log[j].PaymentCreated?
  }

  /** A payment event agrees with the row of its payment. */
  ghost predicate TruePaymentEvent(payments: map<Uuid, Payments.Payment>, e: Event) {
    && e.Payment?() && e.paymentId in payments
    && var p := payments[e.paymentId];
       && e.orderId == p.orderId
       && (e.PaymentSucceeded? ==> p.status == Payments.Succeeded)
       && (e.PaymentFailed? ==> p.status == Payments.FailedStatus)
  }

  ghost predicate PaymentRow(db: Payments.Db, id: Uuid) {
    id in db.payments && var p := db.payments[id];
    && p.id == id && p.orderId in db.orders
    && HasPaymentCreated(db.outbox, p)
    && (p.status != Payments.Pending ==> HasResult(db.outbox, p))
  }

  ghost predicate PaymentLog(db: Payments.Db) {
    && (forall id | id in db.payments :: PaymentRow(db, id))
    && (forall p, q | p in db.payments && q in db.payments && db.payments[p].orderId == db.payments[q].orderId ::
        p == q)
    && (forall e | e in db.outbox :: TruePaymentEvent(db.payments, e))
    && OncePerPayment(db.outbox)
  }

  // ----- Identifiers -----

  ghost predicate Logged(c: Core, e: Event) {
    e in c.tickets.outbox || e in c.orders.outbox || e in c.payments.outbox
  }

  ghost predicate Identifiers(c: Core) {
    && (forall e | Logged(c, e) :: e.eventId in c.issued && e.eventId !in c.orders.orders)
    && (forall e, f | Logged(c, e) && Logged(c, f) && e.eventId == f.eventId :: e == f)
    && DistinctIds(c.tickets.outbox) && DistinctIds(c.orders.outbox) && DistinctIds(c.payments.outbox)
    && c.tickets.processed <= c.issued && c.orders.processed <= c.issued && c.payments.processed <= c.issued
    && c.orders.orders.Keys <= c.issued
  }

  // ----- Tickets and Orders -----

  ghost predicate CreatedProcessed(processed: set<Uuid>, log: seq<Event>, o: Uuid) {
    exists e :: e in log && e.OrderCreated? && e.orderId == o && e.eventId in processed
  }

  ghost predicate CanceledProcessed(processed: set<Uuid>, log: seq<Event>, o: Uuid) {
    exists e :: e in log && e.OrderCanceled? && e.orderId == o && e.eventId in processed
  }

  /** Tickets has seen order `o` and not yet seen it canceled. */
  ghost predicate Holds(t: Tickets.Db, o: Orders.Db, order: Uuid) {
    CreatedProcessed(t.processed, o.outbox, order) && !CanceledProcessed(t.processed, o.outbox, order)
  }

  /** The reservation marker of a ticket is the one order that holds it. */
  ghost predicate Markers(t: Tickets.Db, o: Orders.Db) {
    && (forall id | id in t.tickets && t.tickets[id].reservedBy.Some? ::
          var order := t.tickets[id].reservedBy.value;
          order in o.orders && o.orders[order].ticketId == id && Holds(t, o, order))
    && (forall order | order in o.orders && Holds(t, o, order) ::
          o.orders[order].ticketId in t.tickets && t.tickets[o.orders[order].ticketId].reservedBy == Some(order))
    && (forall order :: CanceledProcessed(t.processed, o.outbox, order) ==>
        CreatedProcessed(t.processed, o.outbox, order))
  }

  /** Orders' copy of ticket `id` is the snapshot Tickets committed at that version. */
  ghost predicate Snapshot(t: Tickets.Db, row: Orders.TicketRow, id: Uuid) {
    && id in t.tickets && 0 <= row.version <= t.tickets[id].version
    && var h := History(t.outbox, id);
       row.version < |h| && h[row.version].Ticket?() && row == Orders.RowOf(h[row.version])
  }

  ghost predicate TicketProjection(t: Tickets.Db, o: Orders.Db) {
    && (forall id | id in o.tickets :: Snapshot(t, o.tickets[id], id))
    && (forall e | e in t.outbox && e.eventId in o.processed ::
          e.Ticket?() && e.ticketId in o.tickets && e.version <= o.tickets[e.ticketId].version)
  }

  // ----- Orders and Payments -----

  /** Payments' copy of order `id`. */
  ghost predicate OrderSnapshot(o: Orders.Db, row: Payments.OrderRow, id: Uuid) {
    && id in o.orders && row.userId == o.orders[id].userId
    && (|| (row.version == 0 && row.status == Created)
        || (row.version == 1 && row.status == Canceled && o.orders[id].status == Canceled && o.orders[id].version == 1))
  }

  ghost predicate OrderProjection(o: Orders.Db, p: Payments.Db) {
    && (forall id | id in p.orders :: OrderSnapshot(o, p.orders[id], id))
    && (forall e | e in o.outbox && e.OrderCreated? && e.eventId in p.processed :: e.orderId in p.orders)
    && (forall e | e in o.outbox && e.OrderCanceled? && e.eventId in p.processed ::
          e.version == 1 && e.orderId in p.orders && p.orders[e.orderId].status == Canceled)
  }

  ghost predicate HasSucceeded(log: seq<Event>, o: Uuid) {
    exists e :: e in log && e.PaymentSucceeded? && e.orderId == o
  }

  ghost predicate HasPayment(p: Payments.Db, o: Uuid) {
    exists id :: id in p.payments && p.payments[id].orderId == o
  }

  ghost predicate Settlement(o: Orders.Db, p: Payments.Db) {
    && (forall id | id in o.orders && o.orders[id].status == Complete :: HasSucceeded(p.outbox, id))
    && (forall id | id in o.orders && (o.orders[id].status == AwaitingPayment || o.orders[id].version == 2) ::
        HasPayment(p, id))
    && (forall e | e in p.outbox && e.Payment?() && e.eventId in o.processed ::
          e.orderId in o.orders && o.orders[e.orderId].status != Created
          && (e.PaymentResult?() ==> !Orders.Active(o.orders[e.orderId].status)))
    && (forall id | id in o.orders && id in o.processed :: o.orders[id].status != Created)
  }

  // ----- Exclusiveness -----

  /** At time `now` no two live orders are for the same ticket. */
  ghost predicate Exclusive(orders: map<Uuid, Orders.Order>, now: int) {
    forall a, b | a in orders && b in orders && Orders.Live(orders[a], now) && Orders.Live(orders[b], now)
                  && orders[a].ticketId == orders[b].ticketId :: a == b
  }

  ghost predicate Inv(c: Core) {
    && TicketLog(c.tickets) && OrderLog(c.orders) && PaymentLog(c.payments)
    && Identifiers(c)
    && Markers(c.tickets, c.orders) && TicketProjection(c.tickets, c.orders)
    && OrderProjection(c.orders, c.payments) && Settlement(c.orders, c.payments)
    && Exclusive(c.orders.orders, c.now)
  }

  lemma InitialInv(now: int)
    ensures Inv(Initial(now))
  {
  }

  // ----- Facts about logs -----

  lemma {:induction false} HistoryAppend(log: seq<Event>, e: Event, t: Uuid)
    ensures History(log + [e], t) == if e.Ticket?() && e.ticketId == t then History(log, t) + [e] else History(log, t)
  {
    assert (log + [e])[..|log|] == log;
  }

  /** The history of a ticket holds its events and nothing else. */
  lemma {:induction false} HistoryMembers(log: seq<Event>, t: Uuid, e: Event)
    ensures e in History(log, t) <==> e in log && e.Ticket?() && e.ticketId == t
  {
    if log != [] {
      var front := log[..|log| - 1];
      HistoryMembers(front, t, e);
      assert log == front + [log[|log| - 1]];
    }
  }

  /** In a gap-free log the event of version k is the k-th of its ticket. */
  lemma EventAtVersion(t: Tickets.Db, e: Event)
    requires TicketLog(t) && e in t.outbox
    ensures e.Ticket?() && e.ticketId in t.tickets && 0 <= e.version <= t.tickets[e.ticketId].version
    ensures |History(t.outbox, e.ticketId)| == t.tickets[e.ticketId].version + 1
    ensures History(t.outbox, e.ticketId)[e.version] == e
  {
    HistoryMembers(t.outbox, e.ticketId, e);
    assert GapFree(t.tickets[e.ticketId], e.ticketId, History(t.outbox, e.ticketId));
  }

  /** A ticket without a row has no events. */
  lemma {:induction false} NoHistory(t: Tickets.Db, id: Uuid)
    requires TicketLog(t) && id !in t.tickets
    ensures History(t.outbox, id) == []
  {
    if History(t.outbox, id) != [] {
      HistoryMembers(t.outbox, id, History(t.outbox, id)[0]);
      assert false;
    }
  }
}
