/** Every transaction of the Orders service keeps the invariant.  A transaction is taken apart
    into at most one change of a row, which keeps everything by itself, and the recording of
    the event id, which is harmless once the row tells what the event told. */
module OrderSteps {
  import opened Events
  import opened Saga
  import opened Invariants
  import Tickets
  import Orders
  import Payments
  import TicketSteps

  // ----- Facts that the larger proofs use while the invariant stays folded -----

  lemma UnissuedIsUnprocessed(c: Core, id: Uuid)
    requires Identifiers(c) && id !in c.issued
    ensures id !in c.tickets.processed && id !in c.orders.processed && id !in c.payments.processed
  {
  }

  lemma ProcessedIsIssued(c: Core)
    requires Identifiers(c)
    ensures c.tickets.processed <= c.issued && c.orders.processed <= c.issued && c.payments.processed <= c.issued
  {
  }

  lemma OrderRowFacts(c: Core, key: Uuid)
    requires OrderLog(c.orders) && Identifiers(c) && key in c.orders.orders
    ensures c.orders.orders[key].id == key && LifecycleVersion(c.orders.orders[key]) && key in c.issued
    ensures c.tickets.processed <= c.issued && c.orders.processed <= c.issued && c.payments.processed <= c.issued
  {
    assert OrderRow(c.orders, key);
  }

  lemma TicketProjectionFrame(t: Tickets.Db, o: Orders.Db, o': Orders.Db)
    requires TicketProjection(t, o) && o'.tickets == o.tickets && o'.processed == o.processed
    ensures TicketProjection(t, o')
  {
  }

  lemma SettlementFrame(o: Orders.Db, o': Orders.Db, p: Payments.Db)
    requires Settlement(o, p) && o'.orders == o.orders && o'.processed == o.processed
    ensures Settlement(o', p)
  {
  }

  // ----- Appending an event to the log of Orders -----

  lemma IdentifiersOrderEvent(c: Core, c': Core, e: Event, key: Uuid)
    requires Identifiers(c)
    requires c'.orders.outbox == c.orders.outbox + [e] && c'.orders.processed == c.orders.processed
    requires c'.tickets == c.tickets && c'.payments == c.payments
    requires c'.orders.orders.Keys == c.orders.orders.Keys + {key}
    requires key in c.orders.orders || (key !in c.issued && key in c'.issued)
    requires c.issued <= c'.issued && e.eventId in c'.issued && e.eventId !in c.issued && e.eventId != key
    ensures Identifiers(c')
  {
    assert forall f :: Logged(c', f) <==> Logged(c, f) || f == e;
    var log, log' := c.orders.outbox, c'.orders.outbox;
    forall i, j | 0 <= i < j < |log'|
      ensures log'[i].eventId != log'[j].eventId
    {
      assert Logged(c, log[i]);
    }
  }

  /** Tickets has not processed an event that was just written. */
  lemma HoldsAppend(t: Tickets.Db, o: Orders.Db, o': Orders.Db, e: Event, x: Uuid)
    requires o'.outbox == o.outbox + [e] && e.eventId !in t.processed
    ensures CreatedProcessed(t.processed, o'.outbox, x) <==> CreatedProcessed(t.processed, o.outbox, x)
    ensures CanceledProcessed(t.processed, o'.outbox, x) <==> CanceledProcessed(t.processed, o.outbox, x)
    ensures Holds(t, o', x) <==> Holds(t, o, x)
  {
    assert forall f :: f in o.outbox ==> f in o'.outbox;
  }

  /** Nobody holds an order that is not in the log. */
  lemma UnknownIsNotHeld(t: Tickets.Db, o: Orders.Db, x: Uuid)
    requires OrderLog(o) && x !in o.orders
    ensures !Holds(t, o, x)
  {
    forall e | e in o.outbox && e.OrderCreated?
      ensures e.orderId != x
    {
      assert TrueOrderEvent(o.orders, e);
    }
  }

  lemma MarkersOrderEvent(t: Tickets.Db, o: Orders.Db, o': Orders.Db, e: Event, key: Uuid)
    requires Markers(t, o) && OrderLog(o)
    requires o'.outbox == o.outbox + [e] && e.eventId !in t.processed
    requires key in o'.orders && o'.orders == o.orders[key := o'.orders[key]]
    requires key in o.orders ==> o'.orders[key].ticketId == o.orders[key].ticketId
    ensures Markers(t, o')
  {
    hide Markers, OrderLog;
    ReleaseFollowsReserve(t, o);
    forall x
      ensures Holds(t, o', x) <==> Holds(t, o, x)
      ensures CanceledProcessed(t.processed, o'.outbox, x) ==> CreatedProcessed(t.processed, o'.outbox, x)
    {
      HoldsAppend(t, o, o', e, x);
    }
    if key !in o.orders {
      UnknownIsNotHeld(t, o, key);
    }
    MarkersTransfer(t, o, o', key);
  }

  lemma ReleaseFollowsReserve(t: Tickets.Db, o: Orders.Db)
    requires Markers(t, o)
    ensures forall x :: CanceledProcessed(t.processed, o.outbox, x) ==> CreatedProcessed(t.processed, o.outbox, x)
  {
  }

  /** Markers speak of who holds a ticket, and of the tickets of the orders. */
  lemma MarkersTransfer(t: Tickets.Db, o: Orders.Db, o': Orders.Db, key: Uuid)
    requires Markers(t, o) && (key !in o.orders ==> !Holds(t, o, key))
    requires forall x :: Holds(t, o', x) <==> Holds(t, o, x)
    requires forall x :: CanceledProcessed(t.processed, o'.outbox, x) ==> CreatedProcessed(t.processed, o'.outbox, x)
    requires key in o'.orders && o'.orders == o.orders[key := o'.orders[key]]
    requires key in o.orders ==> o'.orders[key].ticketId == o.orders[key].ticketId
    ensures Markers(t, o')
  {
    hide Holds, CreatedProcessed, CanceledProcessed;
  }

  lemma HasAppend(log: seq<Event>, e: Event, o: Uuid)
    ensures HasCreated(log, o) || (e.OrderCreated? && e.orderId == o) ==> HasCreated(log + [e], o)
    ensures HasCanceled(log, o) || (e.OrderCanceled? && e.orderId == o) ==> HasCanceled(log + [e], o)
  {
    assert e in log + [e];
    assert forall f :: f in log ==> f in log + [e];
  }

  lemma OncePerOrderAppend(log: seq<Event>, e: Event)
    requires OncePerOrder(log) && e.Order?()
    requires forall f | f in log && f.Order?() && f.orderId == e.orderId :: f.OrderCreated? != e.OrderCreated?
    ensures OncePerOrder(log + [e])
  {
  }

  // ----- A new order -----

  lemma OrderLogInsert(o: Orders.Db, o': Orders.Db, key: Uuid, row: Orders.Order, e: Event)
    requires OrderLog(o) && key !in o.orders
    requires o' == Orders.InsertOrder(o, key, row, e)
    requires row.id == key && row.status == Created && row.version == 0 && row.ticketId in o.tickets
             && !Blank(row.userId)
    requires e.OrderCreated? && e.orderId == key && ValidOrderEvent(e)
    requires e.ticketId == row.ticketId && e.userId == row.userId && e.expiresAt == row.expiresAt && e.version == 0
    ensures OrderLog(o')
  {
    forall id | id in o'.orders
      ensures OrderRow(o', id)
    {
      HasAppend(o.outbox, e, id);
      if id != key {
        assert OrderRow(o, id);
      }
    }
    forall f | f in o.outbox
      ensures f.orderId != key && TrueOrderEvent(o'.orders, f)
    {
      assert TrueOrderEvent(o.orders, f);
    }
    OncePerOrderAppend(o.outbox, e);
  }

  lemma ExclusiveInsert(orders: map<Uuid, Orders.Order>, now: int, txNow: int, key: Uuid, row: Orders.Order)
    requires Exclusive(orders, now) && txNow <= now && key !in orders
    requires Orders.IsBlockingOrder(orders, row.ticketId, txNow, None)
    ensures Exclusive(orders[key := row], now)
  {
    forall id | id in orders && Orders.Live(orders[id], now)
      ensures orders[id].ticketId != row.ticketId
    {
      assert !Orders.Blocks(orders[id], row.ticketId, txNow);
    }
  }

  lemma OrderProjectionEvent(o: Orders.Db, o': Orders.Db, p: Payments.Db, e: Event)
    requires OrderProjection(o, p)
    requires o'.outbox == o.outbox + [e] && e.eventId !in p.processed
    requires forall id | id in o.orders :: id in o'.orders && o'.orders[id].userId == o.orders[id].userId
               && (o.orders[id].status == Canceled ==> o'.orders[id] == o.orders[id])
    ensures OrderProjection(o', p)
  {
    forall id | id in p.orders
      ensures OrderSnapshot(o', p.orders[id], id)
    {
      assert OrderSnapshot(o, p.orders[id], id);
    }
  }

  lemma InsertInv(c: Core, c': Core, txNow: int, row: Orders.Order, e: Event)
    requires Inv(c) && row.id !in c.orders.orders
    requires c' == c.(orders := Orders.InsertOrder(c.orders, row.id, row, e), issued := c'.issued)
    requires row.status == Created && row.version == 0 && row.ticketId in c.orders.tickets && !Blank(row.userId)
    requires e.OrderCreated? && e.orderId == row.id && ValidOrderEvent(e)
    requires e.ticketId == row.ticketId && e.userId == row.userId && e.expiresAt == row.expiresAt && e.version == 0
    requires txNow <= c.now && Orders.IsBlockingOrder(c.orders.orders, row.ticketId, txNow, None)
    requires c.issued <= c'.issued && row.id !in c.issued && e.eventId !in c.issued && row.id != e.eventId
    requires row.id in c'.issued && e.eventId in c'.issued
    ensures Inv(c')
  {
    hide TicketLog, OrderLog, PaymentLog, Identifiers, Markers, TicketProjection, OrderProjection, Settlement,
         Exclusive;
    UnissuedIsUnprocessed(c, e.eventId);
    UnissuedIsUnprocessed(c, row.id);
    TicketProjectionFrame(c.tickets, c.orders, c'.orders);
    OrderLogInsert(c.orders, c'.orders, row.id, row, e);
    ExclusiveInsert(c.orders.orders, c.now, txNow, row.id, row);
    IdentifiersOrderEvent(c, c', e, row.id);
    MarkersOrderEvent(c.tickets, c.orders, c'.orders, e, row.id);
    OrderProjectionEvent(c.orders, c'.orders, c.payments, e);
    SettlementInsert(c.orders, c'.orders, c.payments, row.id);
  }

  lemma SettlementInsert(o: Orders.Db, o': Orders.Db, p: Payments.Db, key: Uuid)
    requires Settlement(o, p) && key !in o.orders && o'.processed == o.processed && key !in o.processed
    requires key in o'.orders && o'.orders == o.orders[key := o'.orders[key]]
    requires o'.orders[key].status == Created && o'.orders[key].version == 0
    ensures Settlement(o', p)
  {
  }

  // ----- A status change without an event -----

  lemma OrderLogMove(o: Orders.Db, key: Uuid, status: OrderStatus)
    requires OrderLog(o) && key in o.orders
    requires (o.orders[key].status == Created && status == AwaitingPayment)
             || (Orders.Active(o.orders[key].status) && status == Complete)
    ensures OrderLog(Orders.Move(o, key, status))
  {
    var o' := Orders.Move(o, key, status);
    forall id | id in o'.orders
      ensures OrderRow(o', id)
    {
      assert OrderRow(o, id);
    }
    forall e | e in o'.outbox
      ensures TrueOrderEvent(o'.orders, e)
    {
      assert TrueOrderEvent(o.orders, e);
    }
  }

  lemma ProjectionMove(o: Orders.Db, key: Uuid, status: OrderStatus, t: Tickets.Db, p: Payments.Db)
    requires key in o.orders && Orders.Active(o.orders[key].status)
    requires Markers(t, o) && OrderProjection(o, p)
    ensures Markers(t, Orders.Move(o, key, status)) && OrderProjection(Orders.Move(o, key, status), p)
  {
    var o' := Orders.Move(o, key, status);
    assert forall x :: Holds(t, o', x) <==> Holds(t, o, x);
    forall id | id in p.orders
      ensures OrderSnapshot(o', p.orders[id], id)
    {
      assert OrderSnapshot(o, p.orders[id], id);
    }
  }

  lemma MoveInv(c: Core, key: Uuid, status: OrderStatus)
    requires Inv(c) && key in c.orders.orders
    requires if status == Complete
             then Orders.Active(c.orders.orders[key].status) && HasSucceeded(c.payments.outbox, key)
             else status == AwaitingPayment && c.orders.orders[key].status == Created && HasPayment(c.payments, key)
    ensures Inv(c.(orders := Orders.Move(c.orders, key, status)))
  {
    hide TicketLog, OrderLog, PaymentLog, Identifiers, Markers, TicketProjection, OrderProjection, Settlement,
         Exclusive;
    var c' := c.(orders := Orders.Move(c.orders, key, status));
    OrderRowFacts(c, key);
    TicketProjectionFrame(c.tickets, c.orders, c'.orders);
    OrderLogMove(c.orders, key, status);
    ProjectionMove(c.orders, key, status, c.tickets, c.payments);
    TicketSteps.IdentifiersSame(c, c');
    SettlementMove(c.orders, key, status, c.payments);
    ExclusiveMove(c.orders, key, status, c.now);
  }

  lemma SettlementMove(o: Orders.Db, key: Uuid, status: OrderStatus, p: Payments.Db)
    requires Settlement(o, p) && key in o.orders && LifecycleVersion(o.orders[key])
             && Orders.Active(o.orders[key].status)
    requires status == Complete || status == Canceled
             || (status == AwaitingPayment && o.orders[key].status == Created && HasPayment(p, key))
    requires status == Complete ==> HasSucceeded(p.outbox, key)
    ensures Settlement(Orders.Move(o, key, status), p)
  {
  }

  lemma ExclusiveMove(o: Orders.Db, key: Uuid, status: OrderStatus, now: int)
    requires Exclusive(o.orders, now) && key in o.orders && Orders.Active(o.orders[key].status)
    ensures Exclusive(Orders.Move(o, key, status).orders, now)
  {
  }

  // ----- A cancellation -----

  lemma SettlementCancel(o: Orders.Db, key: Uuid, eventId: Uuid, p: Payments.Db)
    requires Settlement(o, p) && key in o.orders && LifecycleVersion(o.orders[key])
             && Orders.Active(o.orders[key].status)
    ensures Settlement(Orders.Cancel(o, key, eventId), p)
  {
    SettlementMove(o, key, Canceled, p);
  }

  lemma OrderRowsCancel(o: Orders.Db, key: Uuid, eventId: Uuid, id: Uuid)
    requires OrderLog(o) && key in o.orders && Orders.Active(o.orders[key].status) && id in o.orders
    ensures OrderRow(Orders.Cancel(o, key, eventId), id)
  {
    HasAppend(o.outbox, Orders.CanceledEvent(eventId, Orders.Moved(o.orders[key], Canceled)), id);
    assert OrderRow(o, id);
  }

  /** An order that can still be canceled has no cancellation in the log. */
  lemma ActiveIsNotCanceled(o: Orders.Db, key: Uuid, f: Event)
    requires OrderLog(o) && key in o.orders && Orders.Active(o.orders[key].status) && f in o.outbox
    ensures f.Order?() && (f.orderId == key ==> f.OrderCreated?)
    ensures TrueOrderEvent(o.orders[key := Orders.Moved(o.orders[key], Canceled)], f)
  {
    assert TrueOrderEvent(o.orders, f);
  }

  lemma OrderLogCancel(o: Orders.Db, key: Uuid, eventId: Uuid)
    requires OrderLog(o) && key in o.orders && Orders.Active(o.orders[key].status)
    ensures OrderLog(Orders.Cancel(o, key, eventId))
  {
    var o' := Orders.Cancel(o, key, eventId);
    var e := Orders.CanceledEvent(eventId, o'.orders[key]);
    assert OrderRow(o, key);
    forall id | id in o'.orders
      ensures OrderRow(o', id)
    {
      OrderRowsCancel(o, key, eventId, id);
    }
    forall f | f in o.outbox
      ensures TrueOrderEvent(o'.orders, f) && (f.orderId == key ==> f.OrderCreated?)
    {
      ActiveIsNotCanceled(o, key, f);
    }
    OncePerOrderAppend(o.outbox, e);
  }

  lemma CancelInv(c: Core, c': Core, key: Uuid, eventId: Uuid)
    requires Inv(c) && key in c.orders.orders && Orders.Active(c.orders.orders[key].status)
    requires c' == c.(orders := Orders.Cancel(c.orders, key, eventId), issued := c'.issued)
    requires c.issued <= c'.issued && eventId in c'.issued && eventId !in c.issued
    ensures Inv(c')
  {
    hide TicketLog, OrderLog, PaymentLog, Identifiers, Markers, TicketProjection, OrderProjection, Settlement,
         Exclusive;
    var e := Orders.CanceledEvent(eventId, c'.orders.orders[key]);
    UnissuedIsUnprocessed(c, eventId);
    OrderRowFacts(c, key);
    TicketProjectionFrame(c.tickets, c.orders, c'.orders);
    OrderLogCancel(c.orders, key, eventId);
    IdentifiersOrderEvent(c, c', e, key);
    MarkersOrderEvent(c.tickets, c.orders, c'.orders, e, key);
    OrderProjectionEvent(c.orders, c'.orders, c.payments, e);
    SettlementCancel(c.orders, key, eventId, c.payments);
    ExclusiveMove(c.orders, key, Canceled, c.now);
  }

  // ----- A ticket snapshot -----

  /** Neither the ticket rows nor the processed ids of Orders matter to the rest. */
  lemma OrderFrame(c: Core, c': Core)
    requires Inv(c) && c' == c.(orders := c'.orders)
    requires c'.orders.orders == c.orders.orders && c'.orders.outbox == c.orders.outbox
    requires c.orders.tickets.Keys <= c'.orders.tickets.Keys && c'.orders.processed <= c.issued
    ensures OrderLog(c'.orders) && Identifiers(c')
    ensures Markers(c.tickets, c'.orders) && OrderProjection(c'.orders, c.payments)
  {
    assert forall x :: Holds(c.tickets, c'.orders, x) <==> Holds(c.tickets, c.orders, x);
    OrderLogFrame(c.orders, c'.orders);
    TicketSteps.IdentifiersSame(c, c');
    OrderProjectionFrame(c.orders, c'.orders, c.payments);
  }

  lemma OrderLogFrame(o: Orders.Db, o': Orders.Db)
    requires OrderLog(o) && o'.orders == o.orders && o'.outbox == o.outbox && o.tickets.Keys <= o'.tickets.Keys
    ensures OrderLog(o')
  {
    forall id | id in o'.orders
      ensures OrderRow(o', id)
    {
      assert OrderRow(o, id);
    }
  }

  lemma OrderProjectionFrame(o: Orders.Db, o': Orders.Db, p: Payments.Db)
    requires OrderProjection(o, p) && o'.orders == o.orders && o'.outbox == o.outbox
    ensures OrderProjection(o', p)
  {
    forall id | id in p.orders
      ensures OrderSnapshot(o', p.orders[id], id)
    {
      assert OrderSnapshot(o, p.orders[id], id);
    }
  }

  /** Writing the snapshot of the next missing version keeps the projection true. */
  lemma ProjectionPut(t: Tickets.Db, o: Orders.Db, e: Event)
    requires TicketLog(t) && TicketProjection(t, o) && e in t.outbox && e.Ticket?()
    requires e.version == if e.ticketId in o.tickets then o.tickets[e.ticketId].version + 1 else 0
    ensures TicketProjection(t, o.(tickets := o.tickets[e.ticketId := Orders.RowOf(e)]))
  {
    hide TicketLog, GapFree, History;
    var o' := o.(tickets := o.tickets[e.ticketId := Orders.RowOf(e)]);
    EventAtVersion(t, e);
    forall id | id in o'.tickets
      ensures Snapshot(t, o'.tickets[id], id)
    {
      assert id != e.ticketId ==> Snapshot(t, o.tickets[id], id);
    }
  }

  lemma PutTicketInv(c: Core, e: Event)
    requires Inv(c) && e in c.tickets.outbox && e.Ticket?()
    requires e.version == if e.ticketId in c.orders.tickets then c.orders.tickets[e.ticketId].version + 1 else 0
    ensures Inv(c.(orders := c.orders.(tickets := c.orders.tickets[e.ticketId := Orders.RowOf(e)])))
  {
    hide TicketLog, OrderLog, PaymentLog, Identifiers, Markers, TicketProjection, OrderProjection, Settlement,
         Exclusive;
    var c' := c.(orders := c.orders.(tickets := c.orders.tickets[e.ticketId := Orders.RowOf(e)]));
    ProcessedIsIssued(c);
    SettlementFrame(c.orders, c'.orders, c.payments);
    ProjectionPut(c.tickets, c.orders, e);
    OrderFrame(c, c');
  }

  // ----- Recording an event id -----

  /** The orders table already tells what the event with this id told. */
  ghost predicate Told(c: Core, eventId: Uuid) {
    && (forall e | e in c.tickets.outbox && e.eventId == eventId ::
          e.Ticket?() && e.ticketId in c.orders.tickets && e.version <= c.orders.tickets[e.ticketId].version)
    && (forall e | e in c.payments.outbox && e.Payment?() && e.eventId == eventId ::
          e.orderId in c.orders.orders && c.orders.orders[e.orderId].status != Created
          && (e.PaymentResult?() ==> !Orders.Active(c.orders.orders[e.orderId].status)))
    && (eventId in c.orders.orders ==> c.orders.orders[eventId].status != Created)
  }

  lemma TicketProjectionRecord(c: Core, eventId: Uuid)
    requires TicketProjection(c.tickets, c.orders) && Told(c, eventId)
    ensures TicketProjection(c.tickets, Orders.Record(c.orders, eventId))
  {
    forall id | id in c.orders.tickets
      ensures Snapshot(c.tickets, c.orders.tickets[id], id)
    {
    }
  }

  lemma SettlementRecord(c: Core, eventId: Uuid)
    requires Settlement(c.orders, c.payments) && Told(c, eventId)
    ensures Settlement(Orders.Record(c.orders, eventId), c.payments)
  {
  }

  lemma RecordInv(c: Core, eventId: Uuid)
    requires Inv(c) && eventId in c.issued && Told(c, eventId)
    ensures Inv(c.(orders := Orders.Record(c.orders, eventId)))
  {
    hide TicketLog, OrderLog, PaymentLog, Identifiers, Markers, TicketProjection, OrderProjection, Settlement,
         Exclusive, Told;
    ProcessedIsIssued(c);
    TicketProjectionRecord(c, eventId);
    SettlementRecord(c, eventId);
    OrderFrame(c, c.(orders := Orders.Record(c.orders, eventId)));
  }

  /** An event id belongs to one event, so the tables need to tell only what that event told. */
  lemma TicketEventTold(c: Core, e: Event)
    requires Identifiers(c) && e in c.tickets.outbox && e.Ticket?()
    requires e.ticketId in c.orders.tickets && e.version <= c.orders.tickets[e.ticketId].version
    ensures Told(c, e.eventId)
  {
    assert Logged(c, e);
    assert forall f | f in c.tickets.outbox || f in c.payments.outbox :: Logged(c, f);
  }

  lemma PaymentEventTold(c: Core, e: Event)
    requires Identifiers(c) && TicketLog(c.tickets) && e in c.payments.outbox && e.Payment?()
    requires e.orderId in c.orders.orders && c.orders.orders[e.orderId].status != Created
    requires e.PaymentResult?() ==> !Orders.Active(c.orders.orders[e.orderId].status)
    ensures Told(c, e.eventId)
  {
    assert Logged(c, e);
    assert forall f | f in c.tickets.outbox || f in c.payments.outbox :: Logged(c, f);
  }

  lemma ExpirationTold(c: Core, order: Uuid)
    requires Identifiers(c) && order in c.orders.orders && c.orders.orders[order].status != Created
    ensures Told(c, order)
  {
    assert forall f | f in c.tickets.outbox || f in c.payments.outbox :: Logged(c, f);
  }

  /** A payment event is about an order that Orders knows, and about a payment that exists. */
  lemma PaymentEventFacts(c: Core, e: Event)
    requires PaymentLog(c.payments) && OrderProjection(c.orders, c.payments) && e in c.payments.outbox
    ensures e.Payment?() && e.orderId in c.orders.orders && HasPayment(c.payments, e.orderId)
    ensures e.PaymentSucceeded? ==> HasSucceeded(c.payments.outbox, e.orderId)
  {
    assert TruePaymentEvent(c.payments.payments, e);
    assert PaymentRow(c.payments, e.paymentId);
    assert OrderSnapshot(c.orders, c.payments.orders[e.orderId], e.orderId);
  }

  lemma LoggedIsIssued(c: Core, e: Event)
    requires Identifiers(c) && Logged(c, e)
    ensures e.eventId in c.issued
  {
  }

  // ----- The transactions -----

  lemma ReserveInv(c: Core, s: Step)
    requires Inv(c) && s.ReserveTicket? && Enabled(c, s)
    ensures Inv(Issue(Apply(c, s), s))
  {
    hide TicketLog, OrderLog, PaymentLog, Identifiers, Markers, TicketProjection, OrderProjection, Settlement,
         Exclusive, Orders.IsBlockingOrder;
    var c' := Issue(Apply(c, s), s);
    var tx := Orders.ReserveTicketForUser(c.orders, s.txNow, s.expiresAt, s.ticketId, s.userId, s.pick, s.orderId,
                                          s.eventId);
    if tx.RolledBack? || !tx.value.created {
      TicketSteps.NothingHappened(c, c');
    } else {
      assert Generated(s)[0] == s.orderId && Generated(s)[1] == s.eventId;
      assert s.orderId in c'.issued && s.eventId in c'.issued;
      PricePositive(c, s.ticketId);
      InsertInv(c, c', s.txNow, tx.value.order,
                Orders.CreatedEvent(s.eventId, tx.value.order, c.orders.tickets[s.ticketId].price));
    }
  }

  lemma PricePositive(c: Core, id: Uuid)
    requires TicketLog(c.tickets) && TicketProjection(c.tickets, c.orders) && id in c.orders.tickets
    ensures c.orders.tickets[id].price > 0
  {
    assert Snapshot(c.tickets, c.orders.tickets[id], id);
    var h := History(c.tickets.outbox, id);
    HistoryMembers(c.tickets.outbox, id, h[c.orders.tickets[id].version]);
  }

  lemma CancelOrderInv(c: Core, s: Step)
    requires Inv(c) && s.CancelOrder? && Enabled(c, s)
    ensures Inv(Issue(Apply(c, s), s))
  {
    hide TicketLog, OrderLog, PaymentLog, Identifiers, Markers, TicketProjection, OrderProjection, Settlement,
         Exclusive;
    var c' := Issue(Apply(c, s), s);
    assert Generated(s)[0] == s.eventId && s.eventId in c'.issued;
    if s.orderId in c.orders.orders && c.orders.orders[s.orderId].userId == s.userId
      && Orders.Active(c.orders.orders[s.orderId].status) {
      CancelInv(c, c', s.orderId, s.eventId);
    } else {
      TicketSteps.NothingHappened(c, c');
    }
  }

  lemma HandleTicketInv(c: Core, e: Event)
    requires Inv(c) && e in c.tickets.outbox && e.Ticket?() && e.eventId !in c.orders.processed
    ensures var tx := Orders.UpsertTicketFromEvent(c.orders, e.eventId, e.ticketId, Orders.RowOf(e));
            Inv(c.(orders := tx.After(c.orders)))
  {
    hide TicketLog, OrderLog, PaymentLog, Identifiers, Markers, TicketProjection, OrderProjection, Settlement,
         Exclusive, Told;
    LoggedIsIssued(c, e);
    var decision := Orders.DecideTicketEventVersion(Orders.StoredVersion(c.orders, e.ticketId), e.version);
    if decision == Orders.Ignore {
      TicketEventTold(c, e);
      RecordInv(c, e.eventId);
    } else if decision == Orders.Apply && e.price > 0 {
      PutTicketInv(c, e);
      var c1 := c.(orders := c.orders.(tickets := c.orders.tickets[e.ticketId := Orders.RowOf(e)]));
      TicketEventTold(c1, e);
      RecordInv(c1, e.eventId);
    }
  }

  lemma HandlePaymentCreatedInv(c: Core, e: Event)
    requires Inv(c) && e in c.payments.outbox && e.PaymentCreated? && e.eventId !in c.orders.processed
    ensures Inv(c.(orders := Orders.ApplyPaymentCreated(c.orders, e.eventId, e.orderId).After(c.orders)))
  {
    hide TicketLog, OrderLog, PaymentLog, Identifiers, Markers, TicketProjection, OrderProjection, Settlement,
         Exclusive, Told, HasPayment;
    LoggedIsIssued(c, e);
    PaymentEventFacts(c, e);
    var c1 := c;
    if c.orders.orders[e.orderId].status == Created {
      MoveInv(c, e.orderId, AwaitingPayment);
      c1 := c.(orders := Orders.Move(c.orders, e.orderId, AwaitingPayment));
    }
    PaymentEventTold(c1, e);
    RecordInv(c1, e.eventId);
  }

  lemma HandlePaymentSucceededInv(c: Core, e: Event)
    requires Inv(c) && e in c.payments.outbox && e.PaymentSucceeded? && e.eventId !in c.orders.processed
    ensures Inv(c.(orders := Orders.ApplyPaymentSucceeded(c.orders, e.eventId, e.orderId).After(c.orders)))
  {
    hide TicketLog, OrderLog, PaymentLog, Identifiers, Markers, TicketProjection, OrderProjection, Settlement,
         Exclusive, Told, HasPayment, HasSucceeded;
    LoggedIsIssued(c, e);
    PaymentEventFacts(c, e);
    var c1 := c;
    if Orders.Active(c.orders.orders[e.orderId].status) {
      MoveInv(c, e.orderId, Complete);
      c1 := c.(orders := Orders.Move(c.orders, e.orderId, Complete));
    }
    PaymentEventTold(c1, e);
    RecordInv(c1, e.eventId);
  }

  /** A cancellation that a delivered event brings about, together with recording that event. */
  lemma CancelAndRecordInv(c: Core, c': Core, key: Uuid, eventId: Uuid, newEventId: Uuid)
    requires Inv(c) && key in c.orders.orders && Orders.Active(c.orders.orders[key].status)
    requires c' == c.(orders := Orders.Record(Orders.Cancel(c.orders, key, newEventId), eventId), issued := c'.issued)
    requires c.issued <= c'.issued && newEventId in c'.issued && newEventId !in c.issued && eventId in c.issued
    requires Told(c.(orders := Orders.Cancel(c.orders, key, newEventId), issued := c'.issued), eventId)
    ensures Inv(c')
  {
    hide TicketLog, OrderLog, PaymentLog, Identifiers, Markers, TicketProjection, OrderProjection, Settlement,
         Exclusive, Told;
    var c1 := c.(orders := Orders.Cancel(c.orders, key, newEventId), issued := c'.issued);
    CancelInv(c, c1, key, newEventId);
    RecordInv(c1, eventId);
  }

  lemma HandlePaymentFailedInv(c: Core, c': Core, e: Event, newEventId: Uuid)
    requires Inv(c) && e in c.payments.outbox && e.PaymentFailed? && e.eventId !in c.orders.processed
    requires c' == c.(orders := Orders.ApplyPaymentFailed(c.orders, e.eventId, e.orderId, newEventId).After(c.orders),
                      issued := c'.issued)
    requires c.issued <= c'.issued && newEventId in c'.issued && newEventId !in c.issued
    ensures Inv(c')
  {
    hide TicketLog, OrderLog, PaymentLog, Identifiers, Markers, TicketProjection, OrderProjection, Settlement,
         Exclusive, Told, HasPayment;
    LoggedIsIssued(c, e);
    PaymentEventFacts(c, e);
    if Orders.Active(c.orders.orders[e.orderId].status) {
      var c1 := c.(orders := Orders.Cancel(c.orders, e.orderId, newEventId), issued := c'.issued);
      CancelInv(c, c1, e.orderId, newEventId);
      PaymentEventTold(c1, e);
      CancelAndRecordInv(c, c', e.orderId, e.eventId, newEventId);
    } else {
      PaymentEventTold(c, e);
      RecordInv(c, e.eventId);
      TicketSteps.NothingHappened(c.(orders := Orders.Record(c.orders, e.eventId)), c');
    }
  }

  lemma HandleExpirationInv(c: Core, c': Core, order: Uuid, newEventId: Uuid)
    requires Inv(c) && order in c.orders.orders && order !in c.orders.processed
    requires c' == c.(orders := Orders.ApplyExpirationComplete(c.orders, order, order, newEventId).After(c.orders),
                      issued := c'.issued)
    requires c.issued <= c'.issued && newEventId in c'.issued && newEventId !in c.issued
    ensures Inv(c')
  {
    hide TicketLog, OrderLog, PaymentLog, Identifiers, Markers, TicketProjection, OrderProjection, Settlement,
         Exclusive, Told;
    OrderRowFacts(c, order);
    if c.orders.orders[order].status == Created {
      var c1 := c.(orders := Orders.Cancel(c.orders, order, newEventId), issued := c'.issued);
      CancelInv(c, c1, order, newEventId);
      ExpirationTold(c1, order);
      CancelAndRecordInv(c, c', order, order, newEventId);
    } else {
      ExpirationTold(c, order);
      RecordInv(c, order);
      TicketSteps.NothingHappened(c.(orders := Orders.Record(c.orders, order)), c');
    }
  }

  lemma OrdersHandleInv(c: Core, s: Step)
    requires Inv(c) && s.Handle? && s.at == AtOrders && Enabled(c, s)
    ensures Inv(Issue(Apply(c, s), s))
  {
    hide TicketLog, OrderLog, PaymentLog, Identifiers, Markers, TicketProjection, OrderProjection, Settlement,
         Exclusive;
    var c' := Issue(Apply(c, s), s);
    var e := s.event;
    assert Generated(s)[0] == s.eventId && s.eventId in c'.issued;
    if Orders.Handle(c.orders, e, s.eventId).RolledBack? || e.eventId in c.orders.processed {
      TicketSteps.NothingHappened(c, c');
    } else if e.Ticket?() {
      HandleTicketInv(c, e);
      TicketSteps.NothingHappened(c.(orders := c'.orders), c');
    } else if e.PaymentCreated? {
      HandlePaymentCreatedInv(c, e);
      TicketSteps.NothingHappened(c.(orders := c'.orders), c');
    } else if e.PaymentSucceeded? {
      HandlePaymentSucceededInv(c, e);
      TicketSteps.NothingHappened(c.(orders := c'.orders), c');
    } else if e.PaymentFailed? {
      HandlePaymentFailedInv(c, c', e, s.eventId);
    } else {
      HandleExpirationInv(c, c', e.orderId, s.eventId);
    }
  }
}
