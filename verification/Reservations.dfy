/** Who holds a ticket, who may buy it, and what a sale freezes. */
module Reservations {
  import opened Events
  import opened Saga
  import opened Invariants
  import Tickets
  import Orders
  import TicketSteps
  import PaymentSteps
  import Growth

  // ----- The marker in Tickets -----

  /** A ticket is marked with exactly the order whose creation Tickets has processed and whose
      cancellation it has not; so there is at most one such order. */
  lemma MarkerIsTheHolder(c: Core, t: Uuid, o: Uuid)
    requires Reachable(c) && t in c.tickets.tickets
    ensures c.tickets.tickets[t].reservedBy == Some(o)
            <==> o in c.orders.orders && c.orders.orders[o].ticketId == t && Holds(c.tickets, c.orders, o)
  {
    PaymentSteps.ReachableInv(c);
  }

  /** Delivered before its creation was processed, a cancellation is rolled back and stays
      unprocessed; delivered later, it goes through. */
  lemma CancellationWaitsForCreation(c: Core, e: Event, newEventId: Uuid)
    requires Reachable(c) && e in c.orders.outbox && e.OrderCanceled? && e.eventId !in c.tickets.processed
    ensures Tickets.Handle(c.tickets, e, newEventId).Committed?
            <==> CreatedProcessed(c.tickets.processed, c.orders.outbox, e.orderId)
    ensures e.ticketId in c.tickets.tickets && Tickets.Handle(c.tickets, e, newEventId).RolledBack?
            ==> Tickets.Handle(c.tickets, e, newEventId).failure == ReservationPending
  {
    hide Inv, Holds, CreatedProcessed, CanceledProcessed, Reachable;
    CancellationFacts(c, e);
  }

  /** Before its cancellation is processed, an order whose creation was processed is on its ticket. */
  lemma CancellationFacts(c: Core, e: Event)
    requires Reachable(c) && e in c.orders.outbox && e.OrderCanceled? && e.eventId !in c.tickets.processed
    ensures ValidOrderEvent(e)
    ensures e.ticketId in c.tickets.tickets && c.tickets.tickets[e.ticketId].reservedBy == Some(e.orderId)
            <==> CreatedProcessed(c.tickets.processed, c.orders.outbox, e.orderId)
  {
    PaymentSteps.ReachableInv(c);
    TicketSteps.FirstCanceledIsNotRecorded(c, e);
    assert TrueOrderEvent(c.orders.orders, e);
    assert Holds(c.tickets, c.orders, e.orderId) <==> CreatedProcessed(c.tickets.processed, c.orders.outbox, e.orderId);
  }

  /** The creation of an order goes through, the first time, if and only if no other order is on
      the ticket; otherwise it is rolled back and has to be delivered again after the release. */
  lemma CreationWaitsForRelease(c: Core, e: Event, newEventId: Uuid)
    requires Reachable(c) && e in c.orders.outbox && e.OrderCreated? && e.eventId !in c.tickets.processed
    ensures Tickets.Handle(c.tickets, e, newEventId).Committed?
            <==> forall x | x in c.orders.orders && c.orders.orders[x].ticketId == e.ticketId ::
              !Holds(c.tickets, c.orders, x)
    ensures Tickets.Handle(c.tickets, e, newEventId).RolledBack? ==>
            Tickets.Handle(c.tickets, e, newEventId).failure == Reserved
  {
    hide Inv, Holds, Reachable;
    CreationFacts(c, e);
    forall x
      ensures c.tickets.tickets[e.ticketId].reservedBy == Some(x)
              <==> x in c.orders.orders && c.orders.orders[x].ticketId == e.ticketId && Holds(c.tickets, c.orders, x)
    {
      MarkerIsTheHolder(c, e.ticketId, x);
    }
  }

  lemma CreationFacts(c: Core, e: Event)
    requires Reachable(c) && e in c.orders.outbox && e.OrderCreated? && e.eventId !in c.tickets.processed
    ensures ValidOrderEvent(e) && e.ticketId in c.tickets.tickets
    ensures c.tickets.tickets[e.ticketId].reservedBy != Some(e.orderId)
  {
    PaymentSteps.ReachableInv(c);
    assert TrueOrderEvent(c.orders.orders, e);
    assert OrderRow(c.orders, e.orderId);
    assert Snapshot(c.tickets, c.orders.tickets[e.ticketId], e.ticketId);
    TicketSteps.OwnMarkerMeansProcessed(c, e);
  }

  ghost predicate Marked(c: Core, t: Uuid, o: Uuid) {
    t in c.tickets.tickets && c.tickets.tickets[t].reservedBy == Some(o)
  }

  ghost predicate Reserves(c: Core, s: Step, t: Uuid, o: Uuid) {
    !Marked(c, t, o) && Marked(Next(c, s), t, o)
  }

  ghost predicate Releases(c: Core, s: Step, t: Uuid, o: Uuid) {
    Marked(c, t, o) && !Marked(Next(c, s), t, o)
  }

  lemma MarkNeedsCreation(c: Core, t: Uuid, o: Uuid)
    requires Inv(c) && Marked(c, t, o)
    ensures CreatedProcessed(c.tickets.processed, c.orders.outbox, o)
    ensures !CanceledProcessed(c.tickets.processed, c.orders.outbox, o)
    ensures o in c.orders.orders && c.orders.orders[o].ticketId == t
  {
    assert Holds(c.tickets, c.orders, o);
  }

  lemma ProcessedStays(c: Core, c': Core, o: Uuid)
    requires Growth.Grows(c, c')
    ensures CreatedProcessed(c.tickets.processed, c.orders.outbox, o) ==>
            CreatedProcessed(c'.tickets.processed, c'.orders.outbox, o)
    ensures CanceledProcessed(c.tickets.processed, c.orders.outbox, o) ==>
            CanceledProcessed(c'.tickets.processed, c'.orders.outbox, o)
  {
    assert forall e :: e in c.orders.outbox ==> e in c'.orders.outbox;
  }

  /** A reservation is the first processing of the order's creation, a release that of its cancellation. */
  lemma ReleaseProcessesCancellation(c: Core, s: Step, t: Uuid, o: Uuid)
    requires Inv(c) && Releases(c, s, t, o)
    ensures CanceledProcessed(Next(c, s).tickets.processed, Next(c, s).orders.outbox, o)
  {
    PaymentSteps.NextInv(c, s);
    Growth.NextGrows(c, s);
    MarkNeedsCreation(c, t, o);
    ProcessedStays(c, Next(c, s), o);
    var c' := Next(c, s);
    assert Growth.OrderGrows(c.orders.orders[o], c'.orders.orders[o]);
    assert Growth.TicketsGrow(c.tickets, c'.tickets);
    assert !Holds(c'.tickets, c'.orders, o);
  }

  lemma ReserveMeetsUnprocessedCreation(c: Core, s: Step, t: Uuid, o: Uuid)
    requires Inv(c) && Reserves(c, s, t, o)
    ensures !CreatedProcessed(c.tickets.processed, c.orders.outbox, o)
  {
    PaymentSteps.NextInv(c, s);
    Growth.NextGrows(c, s);
    var c' := Next(c, s);
    MarkNeedsCreation(c', t, o);
    ProcessedStays(c, c', o);
    assert o in c.orders.orders ==> Growth.OrderGrows(c.orders.orders[o], c'.orders.orders[o]);
    if CreatedProcessed(c.tickets.processed, c.orders.outbox, o) {
      CreatedProcessedHasRow(c, o);
      assert Holds(c.tickets, c.orders, o);
    }
  }

  lemma CreatedProcessedHasRow(c: Core, o: Uuid)
    requires OrderLog(c.orders) && CreatedProcessed(c.tickets.processed, c.orders.outbox, o)
    ensures o in c.orders.orders
  {
    var e :| e in c.orders.outbox && e.OrderCreated? && e.orderId == o && e.eventId in c.tickets.processed;
    assert TrueOrderEvent(c.orders.orders, e);
  }

  /** In no run does an order mark a ticket twice. */
  lemma {:induction false} ReservesAtMostOnce(c: Core, s: Step, steps: seq<Step>, s': Step, t: Uuid, o: Uuid)
    requires Reachable(c) && Reserves(c, s, t, o)
    ensures !Reserves(Exec(Next(c, s), steps), s', t, o)
  {
    PaymentSteps.ReachableInv(c);
    PaymentSteps.NextInv(c, s);
    var c1 := Next(c, s);
    var c2 := Exec(c1, steps);
    MarkNeedsCreation(c1, t, o);
    Growth.ExecGrows(c1, steps);
    ProcessedStays(c1, c2, o);
    PaymentSteps.ExecInv(c1, steps);
    if Reserves(c2, s', t, o) {
      ReserveMeetsUnprocessedCreation(c2, s', t, o);
    }
  }

  /** Once released, an order never marks the ticket again, so it is released at most once too. */
  lemma {:induction false} ReleaseIsFinal(c: Core, s: Step, steps: seq<Step>, t: Uuid, o: Uuid)
    requires Reachable(c) && Releases(c, s, t, o)
    ensures !Marked(Exec(Next(c, s), steps), t, o)
  {
    PaymentSteps.ReachableInv(c);
    ReleaseProcessesCancellation(c, s, t, o);
    PaymentSteps.NextInv(c, s);
    var c1 := Next(c, s);
    Growth.ExecGrows(c1, steps);
    ProcessedStays(c1, Exec(c1, steps), o);
    PaymentSteps.ExecInv(c1, steps);
    if Marked(Exec(c1, steps), t, o) {
      MarkNeedsCreation(Exec(c1, steps), t, o);
    }
  }

  // ----- A sold ticket -----

  /** Tickets knows of the order, and the order is paid. */
  ghost predicate Sold(c: Core, o: Uuid) {
    && o in c.orders.orders && c.orders.orders[o].status == Complete
    && CreatedProcessed(c.tickets.processed, c.orders.outbox, o)
  }

  lemma SoldIsMarked(c: Core, o: Uuid)
    requires Inv(c) && Sold(c, o)
    ensures Marked(c, c.orders.orders[o].ticketId, o)
  {
    forall e | e in c.orders.outbox && e.OrderCanceled?
      ensures e.orderId != o
    {
      assert TrueOrderEvent(c.orders.orders, e);
    }
    assert Holds(c.tickets, c.orders, o);
  }

  /** While an order keeps its mark, no transaction can touch the row. */
  lemma MarkedRowIsUntouched(c: Core, s: Step, t: Uuid, o: Uuid)
    requires Marked(c, t, o) && Marked(Next(c, s), t, o)
    ensures Next(c, s).tickets.tickets[t] == c.tickets.tickets[t]
  {
    hide Orders.Handle;
  }

  /** Between `c` and `c'` neither the order nor its ticket changed. */
  ghost predicate Frozen(c: Core, c': Core, o: Uuid) {
    && o in c.orders.orders && o in c'.orders.orders && c'.orders.orders[o] == c.orders.orders[o]
    && var t := c.orders.orders[o].ticketId;
       t in c.tickets.tickets && t in c'.tickets.tickets && c'.tickets.tickets[t] == c.tickets.tickets[t]
  }

  lemma SoldStays(c: Core, s: Step, o: Uuid)
    requires Inv(c) && Sold(c, o)
    ensures Sold(Next(c, s), o) && Frozen(c, Next(c, s), o)
  {
    hide Inv, Next, CreatedProcessed, Reachable;
    Growth.NextGrows(c, s);
    ProcessedStays(c, Next(c, s), o);
    PaymentSteps.NextInv(c, s);
    assert Growth.OrderGrows(c.orders.orders[o], Next(c, s).orders.orders[o]);
    SoldIsMarked(c, o);
    SoldIsMarked(Next(c, s), o);
    MarkedRowIsUntouched(c, s, c.orders.orders[o].ticketId, o);
  }

  lemma {:induction false} FrozenFrom(c: Core, steps: seq<Step>, o: Uuid)
    requires Inv(c) && Sold(c, o)
    ensures Sold(Exec(c, steps), o) && Frozen(c, Exec(c, steps), o)
  {
    hide Inv, Next, CreatedProcessed;
    SoldIsMarked(c, o);
    if steps != [] {
      var front := steps[..|steps| - 1];
      FrozenFrom(c, front, o);
      PaymentSteps.ExecInv(c, front);
      SoldStays(Exec(c, front), steps[|steps| - 1], o);
    }
  }

  /** A sold ticket is frozen: title, price, owner, version and marker stay as they are in
      every continuation of the run. */
  lemma {:induction false} SoldTicketIsFrozen(c: Core, steps: seq<Step>, o: Uuid)
    requires Reachable(c) && Sold(c, o)
    ensures Marked(c, c.orders.orders[o].ticketId, o)
    ensures Sold(Exec(c, steps), o) && Frozen(c, Exec(c, steps), o)
  {
    hide Inv, Next;
    PaymentSteps.ReachableInv(c);
    SoldIsMarked(c, o);
    FrozenFrom(c, steps, o);
  }

  // ----- Exclusive reservation -----

  /** The order is Created or AwaitingPayment, and does not expire by `now`. */
  predicate Standing(o: Orders.Order, now: int) {
    (o.status == Created || o.status == AwaitingPayment) && o.expiresAt > now
  }

  /** At every instant at most one order of a ticket is unexpired and Created or AwaitingPayment. */
  lemma OneLiveOrderPerTicket(c: Core, a: Uuid, b: Uuid)
    requires Reachable(c) && a in c.orders.orders && b in c.orders.orders
    requires c.orders.orders[a].ticketId == c.orders.orders[b].ticketId
    requires Standing(c.orders.orders[a], c.now) && Standing(c.orders.orders[b], c.now)
    ensures a == b
  {
    hide Reachable, TicketLog, OrderLog, PaymentLog, Identifiers, Markers, TicketProjection, OrderProjection,
         Settlement;
    PaymentSteps.ReachableInv(c);
  }

  /** No step creates an order for a ticket that has a Complete one. */
  lemma NoOrderAfterSale(c: Core, s: Step, sold: Uuid, o: Uuid)
    requires sold in c.orders.orders && c.orders.orders[sold].status == Complete
    requires o !in c.orders.orders && o in Next(c, s).orders.orders
    ensures Next(c, s).orders.orders[o].ticketId != c.orders.orders[sold].ticketId
  {
    hide Tickets.Handle;
    SaleBlocksReservations(c, s, sold);
  }

  lemma SaleBlocksReservations(c: Core, s: Step, sold: Uuid)
    requires sold in c.orders.orders && c.orders.orders[sold].status == Complete
    ensures s.ReserveTicket? && s.ticketId == c.orders.orders[sold].ticketId && Enabled(c, s) ==>
              s.pick.Some? && c.orders.orders[s.pick.value].status == Complete
  {
    if s.ReserveTicket? && s.ticketId == c.orders.orders[sold].ticketId && Enabled(c, s) {
      Orders.PickIsCompleteIfAnyIs(c.orders.orders, s.ticketId, s.txNow, s.pick, sold);
    }
  }

  /** `x` stands at `txNow` and no other standing order of its ticket expires as late. */
  predicate LastToExpire(orders: map<Uuid, Orders.Order>, x: Uuid, txNow: int)
    requires x in orders
  {
    && Standing(orders[x], txNow)
    && forall y | y in orders && y != x && orders[y].ticketId == orders[x].ticketId && Standing(orders[y], txNow) ::
         orders[y].expiresAt < orders[x].expiresAt
  }

  predicate SoldOut(orders: map<Uuid, Orders.Order>, t: Uuid) {
    exists x :: x in orders && orders[x].ticketId == t && orders[x].status == Complete
  }

  predicate NothingStands(orders: map<Uuid, Orders.Order>, t: Uuid, txNow: int) {
    forall x | x in orders && orders[x].ticketId == t :: !Standing(orders[x], txNow)
  }

  /** What a reservation answers, whichever row Postgres picks.  Its transaction began at `txNow`,
      which may be earlier than the clock: it may have waited for the lock on the ticket.  A ticket
      Orders does not know is not found; a sold one is refused to everyone, its owner included;
      else the last standing order to expire is handed back to its user and refused to the others;
      else there is a new order at the price Orders knows, with its event. */
  lemma ReservationIsDetermined(c: Core, txNow: int, t: Uuid, user: string, expiresAt: int,
                                pick: Option<Uuid>, orderId: Uuid, eventId: Uuid)
    requires orderId !in c.orders.orders && Orders.IsBlockingOrder(c.orders.orders, t, txNow, pick)
    ensures var tx := Orders.ReserveTicketForUser(c.orders, txNow, expiresAt, t, user, pick, orderId, eventId);
            var orders := c.orders.orders;
            if Blank(user) then tx == RolledBack(InvalidInput)
            else if t !in c.orders.tickets then tx == RolledBack(NotFound)
            else if SoldOut(orders, t) then tx == RolledBack(Reserved)
            else if NothingStands(orders, t, txNow) then
              var made := Orders.Order(orderId, expiresAt, user, t, Created, 0);
              var event := OrderCreated(eventId, orderId, Created, user, expiresAt, 0, t, c.orders.tickets[t].price);
              tx == Committed(Orders.Db(c.orders.tickets, orders[orderId := made], c.orders.processed,
                                        c.orders.outbox + [event]),
                              Orders.Reservation(true, made))
            else forall x | x in orders && orders[x].ticketId == t && LastToExpire(orders, x, txNow) ::
                   tx == if orders[x].userId == user then Committed(c.orders, Orders.Reservation(false, orders[x]))
                         else RolledBack(Reserved)
  {
    if SoldOut(c.orders.orders, t) {
      var x :| x in c.orders.orders && c.orders.orders[x].ticketId == t && c.orders.orders[x].status == Complete;
      Orders.PickIsCompleteIfAnyIs(c.orders.orders, t, txNow, pick, x);
    }
    forall x | x in c.orders.orders && c.orders.orders[x].ticketId == t && LastToExpire(c.orders.orders, x, txNow)
      ensures pick.Some? && (c.orders.orders[pick.value].status == Complete || pick.value == x)
    {
      assert Orders.Blocks(c.orders.orders[x], t, txNow);
    }
  }

  /** In a reachable state an order that is live now is the last to expire, however early the
      transaction began: the one that a reservation is decided by. */
  lemma LiveOrderDecides(c: Core, txNow: int, x: Uuid)
    requires Reachable(c) && txNow <= c.now && x in c.orders.orders && Standing(c.orders.orders[x], c.now)
    ensures LastToExpire(c.orders.orders, x, txNow)
  {
    hide Reachable;
    var orders := c.orders.orders;
    forall y | y in orders && y != x && orders[y].ticketId == orders[x].ticketId && Standing(orders[y], txNow)
      ensures orders[y].expiresAt < orders[x].expiresAt
    {
      if Standing(orders[y], c.now) {
        OneLiveOrderPerTicket(c, x, y);
      }
    }
  }
}
