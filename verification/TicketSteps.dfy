/** Every transaction of the Tickets service keeps the invariant. */
module TicketSteps {
  import opened Events
  import opened Saga
  import opened Invariants
  import Tickets
  import Orders

  /** `e` is the snapshot event of writing `row` under `id`. */
  ghost predicate Follows(t: Tickets.Db, id: Uuid, row: Tickets.Ticket, e: Event) {
    && ValidTicketEvent(e) && e.ticketId == id && row.id == id && Shows(e, row)
    && if id in t.tickets then e.TicketUpdated? && row.version == t.tickets[id].version + 1
       else e.TicketCreated? && row.version == 0
  }

  lemma TicketRowFacts(c: Core, id: Uuid)
    requires TicketLog(c.tickets) && id in c.tickets.tickets
    ensures var row := c.tickets.tickets[id]; row.id == id && row.price > 0 && !Blank(row.title) && row.version >= 0
  {
    assert GapFree(c.tickets.tickets[id], id, History(c.tickets.outbox, id));
  }

  lemma IdentifierFacts(c: Core)
    requires Identifiers(c)
    ensures c.tickets.processed <= c.issued && c.orders.processed <= c.issued && c.payments.processed <= c.issued
    ensures forall e | e in c.orders.outbox :: e.eventId in c.issued
  {
    assert forall e | e in c.orders.outbox :: Logged(c, e);
  }

  lemma TicketLogWrite(t: Tickets.Db, t': Tickets.Db, id: Uuid, row: Tickets.Ticket, e: Event)
    requires TicketLog(t) && Follows(t, id, row, e)
    requires t'.tickets == t.tickets[id := row] && t'.outbox == t.outbox + [e]
    ensures TicketLog(t')
  {
    forall other | other in t'.tickets
      ensures GapFree(t'.tickets[other], other, History(t'.outbox, other))
    {
      HistoryAppend(t.outbox, e, other);
      if other == id && id !in t.tickets {
        NoHistory(t, id);
      } else {
        assert GapFree(t.tickets[other], other, History(t.outbox, other));
      }
    }
  }

  /** A committed write extends the log and leaves Orders' projection true. */
  lemma TicketProjectionWrite(t: Tickets.Db, t': Tickets.Db, o: Orders.Db, id: Uuid, row: Tickets.Ticket, e: Event)
    requires TicketLog(t) && TicketProjection(t, o) && Follows(t, id, row, e)
    requires t'.tickets == t.tickets[id := row] && t'.outbox == t.outbox + [e]
    requires e.eventId !in o.processed
    ensures TicketProjection(t', o)
  {
    forall other | other in o.tickets
      ensures Snapshot(t', o.tickets[other], other)
    {
      assert Snapshot(t, o.tickets[other], other);
      HistoryAppend(t.outbox, e, other);
    }
  }

  lemma IdentifiersTicketEvent(c: Core, c': Core, e: Event)
    requires Identifiers(c)
    requires c'.tickets.outbox == c.tickets.outbox + [e]
    requires c'.orders == c.orders && c'.payments == c.payments
    requires c'.tickets.processed <= c'.issued
    requires c.issued <= c'.issued && e.eventId in c'.issued && e.eventId !in c.issued
    ensures Identifiers(c')
  {
    assert forall f :: Logged(c', f) <==> Logged(c, f) || f == e;
    var log, log' := c.tickets.outbox, c'.tickets.outbox;
    forall i, j | 0 <= i < j < |log'|
      ensures log'[i].eventId != log'[j].eventId
    {
      assert Logged(c, log[i]);
    }
  }

  lemma IdentifiersSame(c: Core, c': Core)
    requires Identifiers(c)
    requires c'.tickets.outbox == c.tickets.outbox && c'.orders.outbox == c.orders.outbox
             && c'.payments.outbox == c.payments.outbox
    requires c'.orders.orders.Keys == c.orders.orders.Keys
    requires c'.tickets.processed <= c'.issued && c'.orders.processed <= c'.issued && c'.payments.processed <= c'.issued
    requires c.issued <= c'.issued
    ensures Identifiers(c')
  {
    assert forall f :: Logged(c', f) <==> Logged(c, f);
  }

  lemma MarkersUntouched(t: Tickets.Db, t': Tickets.Db, o: Orders.Db, id: Uuid)
    requires Markers(t, o) && t'.processed == t.processed
    requires id in t'.tickets && t'.tickets == t.tickets[id := t'.tickets[id]]
    requires t'.tickets[id].reservedBy == if id in t.tickets then t.tickets[id].reservedBy else None
    ensures Markers(t', o)
  {
  }

  /** Recording the id of `e` marks `e` as processed and no other order event. */
  lemma RecordedOrderEvent(c: Core, processed': set<Uuid>, e: Event, o: Uuid)
    requires Identifiers(c) && e in c.orders.outbox && e.Order?()
    requires processed' == c.tickets.processed + {e.eventId}
    ensures CreatedProcessed(processed', c.orders.outbox, o)
            <==> CreatedProcessed(c.tickets.processed, c.orders.outbox, o) || (e.OrderCreated? && o == e.orderId)
    ensures CanceledProcessed(processed', c.orders.outbox, o)
            <==> CanceledProcessed(c.tickets.processed, c.orders.outbox, o) || (e.OrderCanceled? && o == e.orderId)
  {
    assert Logged(c, e);
    if CreatedProcessed(processed', c.orders.outbox, o) {
      var f :| f in c.orders.outbox && f.OrderCreated? && f.orderId == o && f.eventId in processed';
      assert Logged(c, f);
    }
    if CanceledProcessed(processed', c.orders.outbox, o) {
      var f :| f in c.orders.outbox && f.OrderCanceled? && f.orderId == o && f.eventId in processed';
      assert Logged(c, f);
    }
  }

  /** Two order events of the same kind about the same order are the same event. */
  lemma OneEventPerOrder(log: seq<Event>, e: Event, f: Event)
    requires OncePerOrder(log) && e in log && f in log && e.Order?() && f.Order?()
    requires e.orderId == f.orderId && e.OrderCreated? == f.OrderCreated?
    ensures e == f
  {
    var i :| 0 <= i < |log| && log[i] == e;
    var j :| 0 <= j < |log| && log[j] == f;
    assert !(i < j) && !(j < i);
  }

  /** What a first processing of OrderCreated(o) meets: `o` is not canceled there yet. */
  lemma FirstCreatedIsNotHeld(c: Core, e: Event)
    requires Inv(c) && e in c.orders.outbox && e.OrderCreated? && e.eventId !in c.tickets.processed
    ensures !CreatedProcessed(c.tickets.processed, c.orders.outbox, e.orderId)
    ensures !CanceledProcessed(c.tickets.processed, c.orders.outbox, e.orderId)
  {
    if CreatedProcessed(c.tickets.processed, c.orders.outbox, e.orderId) {
      var f :| f in c.orders.outbox && f.OrderCreated? && f.orderId == e.orderId && f.eventId in c.tickets.processed;
      OneEventPerOrder(c.orders.outbox, e, f);
    }
  }

  lemma FirstCanceledIsNotRecorded(c: Core, e: Event)
    requires Inv(c) && e in c.orders.outbox && e.OrderCanceled? && e.eventId !in c.tickets.processed
    ensures !CanceledProcessed(c.tickets.processed, c.orders.outbox, e.orderId)
  {
    if CanceledProcessed(c.tickets.processed, c.orders.outbox, e.orderId) {
      var f :| f in c.orders.outbox && f.OrderCanceled? && f.orderId == e.orderId && f.eventId in c.tickets.processed;
      OneEventPerOrder(c.orders.outbox, e, f);
    }
  }

  /** The marker of ticket `id` changes along with who holds it. */
  lemma MarkerMoves(t: Tickets.Db, t': Tickets.Db, o: Orders.Db, id: Uuid, order: Uuid)
    requires Markers(t, o)
    requires order in o.orders && o.orders[order].ticketId == id
    requires id in t.tickets && id in t'.tickets && t'.tickets == t.tickets[id := t'.tickets[id]]
    requires forall x | x != order :: Holds(t', o, x) <==> Holds(t, o, x)
    requires forall x :: CanceledProcessed(t'.processed, o.outbox, x) ==> CreatedProcessed(t'.processed, o.outbox, x)
    requires if Holds(t', o, order) then t.tickets[id].reservedBy == None && t'.tickets[id].reservedBy == Some(order)
             else t.tickets[id].reservedBy == Some(order) && t'.tickets[id].reservedBy == None
    ensures Markers(t', o)
  {
    forall x | x in o.orders && Holds(t', o, x)
      ensures o.orders[x].ticketId in t'.tickets && t'.tickets[o.orders[x].ticketId].reservedBy == Some(x)
    {
      assert x != order ==> Holds(t, o, x);
    }
  }

  lemma ReserveKeepsMarkers(c: Core, t': Tickets.Db, e: Event)
    requires Inv(c) && e in c.orders.outbox && e.OrderCreated? && e.eventId !in c.tickets.processed
    requires e.ticketId in c.tickets.tickets && c.tickets.tickets[e.ticketId].reservedBy == None
    requires e.ticketId in t'.tickets && t'.tickets == c.tickets.tickets[e.ticketId := t'.tickets[e.ticketId]]
    requires t'.tickets[e.ticketId].reservedBy == Some(e.orderId)
    requires t'.processed == c.tickets.processed + {e.eventId}
    ensures Markers(t', c.orders)
  {
    assert TrueOrderEvent(c.orders.orders, e);
    forall x
      ensures x != e.orderId ==> (Holds(t', c.orders, x) <==> Holds(c.tickets, c.orders, x))
      ensures x == e.orderId ==> Holds(t', c.orders, x)
      ensures CanceledProcessed(t'.processed, c.orders.outbox, x) ==> CreatedProcessed(t'.processed, c.orders.outbox, x)
    {
      RecordedOrderEvent(c, t'.processed, e, x);
      FirstCreatedIsNotHeld(c, e);
    }
    MarkerMoves(c.tickets, t', c.orders, e.ticketId, e.orderId);
  }

  lemma UnreserveKeepsMarkers(c: Core, t': Tickets.Db, e: Event)
    requires Inv(c) && e in c.orders.outbox && e.OrderCanceled? && e.eventId !in c.tickets.processed
    requires e.ticketId in c.tickets.tickets && c.tickets.tickets[e.ticketId].reservedBy == Some(e.orderId)
    requires e.ticketId in t'.tickets && t'.tickets == c.tickets.tickets[e.ticketId := t'.tickets[e.ticketId]]
    requires t'.tickets[e.ticketId].reservedBy == None
    requires t'.processed == c.tickets.processed + {e.eventId}
    ensures Markers(t', c.orders)
  {
    assert TrueOrderEvent(c.orders.orders, e);
    forall x
      ensures x != e.orderId ==> (Holds(t', c.orders, x) <==> Holds(c.tickets, c.orders, x))
      ensures x == e.orderId ==> !Holds(t', c.orders, x)
      ensures CanceledProcessed(t'.processed, c.orders.outbox, x) ==> CreatedProcessed(t'.processed, c.orders.outbox, x)
    {
      RecordedOrderEvent(c, t'.processed, e, x);
      assert Holds(c.tickets, c.orders, e.orderId);
    }
    MarkerMoves(c.tickets, t', c.orders, e.ticketId, e.orderId);
  }

  /** An OrderCreated that meets its own marker would have been processed before. */
  lemma OwnMarkerMeansProcessed(c: Core, e: Event)
    requires Inv(c) && e in c.orders.outbox && e.OrderCreated? && e.eventId !in c.tickets.processed
    requires e.ticketId in c.tickets.tickets
    ensures c.tickets.tickets[e.ticketId].reservedBy != Some(e.orderId)
  {
    FirstCreatedIsNotHeld(c, e);
  }

  /** Assembles the invariant after a row of tickets was written. */
  lemma TicketWriteInv(c: Core, c': Core, id: Uuid, row: Tickets.Ticket, e: Event)
    requires Inv(c) && Follows(c.tickets, id, row, e)
    requires c'.tickets.tickets == c.tickets.tickets[id := row] && c'.tickets.outbox == c.tickets.outbox + [e]
    requires c' == c.(tickets := c'.tickets, issued := c'.issued)
    requires c'.tickets.processed <= c'.issued
    requires c.issued <= c'.issued && e.eventId in c'.issued && e.eventId !in c.issued
    requires Markers(c'.tickets, c'.orders)
    ensures Inv(c')
  {
    hide TicketLog, OrderLog, PaymentLog, Identifiers, Markers, TicketProjection, OrderProjection, Settlement,
         Exclusive;
    IdentifierFacts(c);
    TicketLogWrite(c.tickets, c'.tickets, id, row, e);
    TicketProjectionWrite(c.tickets, c'.tickets, c.orders, id, row, e);
    IdentifiersTicketEvent(c, c', e);
  }

  lemma NothingHappened(c: Core, c': Core)
    requires Inv(c) && c' == c.(issued := c'.issued) && c.issued <= c'.issued
    ensures Inv(c')
  {
    hide TicketLog, OrderLog, PaymentLog, Identifiers, Markers, TicketProjection, OrderProjection, Settlement,
         Exclusive;
    IdentifierFacts(c);
    IdentifiersSame(c, c');
  }

  lemma CreateTicketInv(c: Core, s: Step)
    requires Inv(c) && s.CreateTicket? && Enabled(c, s)
    ensures Inv(Issue(Apply(c, s), s))
  {
    hide TicketLog, OrderLog, PaymentLog, Identifiers, Markers, TicketProjection, OrderProjection, Settlement,
         Exclusive;
    var c' := Issue(Apply(c, s), s);
    var tx := Tickets.CreateTicket(c.tickets, s.title, s.price, s.userId, s.ticketId, s.eventId);
    if tx.Committed? {
      assert s.eventId == Generated(s)[1] && s.eventId in c'.issued;
      IdentifierFacts(c);
      MarkersUntouched(c.tickets, c'.tickets, c.orders, s.ticketId);
      TicketWriteInv(c, c', s.ticketId, tx.value, Tickets.CreatedEvent(s.eventId, tx.value));
    } else {
      NothingHappened(c, c');
    }
  }

  lemma UpdateTicketInv(c: Core, s: Step)
    requires Inv(c) && s.UpdateTicket? && Enabled(c, s)
    ensures Inv(Issue(Apply(c, s), s))
  {
    hide TicketLog, OrderLog, PaymentLog, Identifiers, Markers, TicketProjection, OrderProjection, Settlement,
         Exclusive;
    var c' := Issue(Apply(c, s), s);
    var tx := Tickets.UpdateTicket(c.tickets, s.id, s.title, s.price, s.userId, s.eventId);
    if tx.Committed? {
      assert s.eventId == Generated(s)[0] && s.eventId in c'.issued;
      IdentifierFacts(c);
      TicketRowFacts(c, s.id);
      MarkersUntouched(c.tickets, c'.tickets, c.orders, s.id);
      TicketWriteInv(c, c', s.id, tx.value, Tickets.UpdatedEvent(s.eventId, tx.value));
    } else {
      NothingHappened(c, c');
    }
  }

  /** The row a reservation or a release writes continues the log of its ticket. */
  lemma MarkerWriteFollows(t: Tickets.Db, id: Uuid, marker: Option<Uuid>, newEventId: Uuid)
    requires TicketLog(t) && id in t.tickets
    ensures var row := Tickets.Next(t.tickets[id].(reservedBy := marker));
            Follows(t, id, row, Tickets.UpdatedEvent(newEventId, row))
  {
    assert GapFree(t.tickets[id], id, History(t.outbox, id));
  }

  /** The whole effect of processing an order event for the first time. */
  ghost predicate MarkerWritten(t: Tickets.Db, t': Tickets.Db, e: Event, marker: Option<Uuid>, newEventId: Uuid) {
    && e.Order?() && e.ticketId in t.tickets
    && var row := Tickets.Next(t.tickets[e.ticketId].(reservedBy := marker));
       t' == Tickets.Write(t.(processed := t.processed + {e.eventId}), e.ticketId, row,
                           Tickets.UpdatedEvent(newEventId, row))
  }

  lemma MarkerWrittenInv(c: Core, c': Core, e: Event, marker: Option<Uuid>, newEventId: Uuid)
    requires Inv(c) && MarkerWritten(c.tickets, c'.tickets, e, marker, newEventId)
    requires c' == c.(tickets := c'.tickets, issued := c'.issued)
    requires c.issued <= c'.issued && newEventId in c'.issued && newEventId !in c.issued && e.eventId in c.issued
    requires Markers(c'.tickets, c.orders)
    ensures Inv(c')
  {
    hide TicketLog, OrderLog, PaymentLog, Identifiers, Markers, TicketProjection, OrderProjection, Settlement,
         Exclusive;
    MarkerWriteFollows(c.tickets, e.ticketId, marker, newEventId);
    IdentifierFacts(c);
    var row := c'.tickets.tickets[e.ticketId];
    TicketWriteInv(c, c', e.ticketId, row, Tickets.UpdatedEvent(newEventId, row));
  }

  /** What a delivery to Tickets that commits for the first time has done. */
  lemma TicketsHandleEffect(t: Tickets.Db, e: Event, newEventId: Uuid)
    requires Tickets.Handle(t, e, newEventId).Committed? && e.eventId !in t.processed
    ensures e.Order?() && e.ticketId in t.tickets
    ensures var t' := Tickets.Handle(t, e, newEventId).db;
            if e.OrderCanceled? then
              t.tickets[e.ticketId].reservedBy == Some(e.orderId) && MarkerWritten(t, t', e, None, newEventId)
            else if t.tickets[e.ticketId].reservedBy == Some(e.orderId) then
              t' == t.(processed := t.processed + {e.eventId})
            else t.tickets[e.ticketId].reservedBy == None && MarkerWritten(t, t', e, Some(e.orderId), newEventId)
  {
  }

  lemma FirstDeliveryInv(c: Core, c': Core, e: Event, newEventId: Uuid)
    requires Inv(c) && e in c.orders.outbox && e.eventId !in c.tickets.processed
    requires Tickets.Handle(c.tickets, e, newEventId).Committed?
             && c'.tickets == Tickets.Handle(c.tickets, e, newEventId).db
    requires c' == c.(tickets := c'.tickets, issued := c'.issued)
    requires c.issued <= c'.issued && newEventId in c'.issued && newEventId !in c.issued
    ensures Inv(c')
  {
    hide TicketLog, OrderLog, PaymentLog, Identifiers, Markers, TicketProjection, OrderProjection, Settlement,
         Exclusive, MarkerWritten;
    TicketsHandleEffect(c.tickets, e, newEventId);
    IdentifierFacts(c);
    if e.OrderCreated? {
      OwnMarkerMeansProcessed(c, e);
      ReserveKeepsMarkers(c, c'.tickets, e);
      MarkerWrittenInv(c, c', e, Some(e.orderId), newEventId);
    } else {
      UnreserveKeepsMarkers(c, c'.tickets, e);
      MarkerWrittenInv(c, c', e, None, newEventId);
    }
  }

  lemma TicketsHandleInv(c: Core, s: Step)
    requires Inv(c) && s.Handle? && s.at == AtTickets && Enabled(c, s)
    ensures Inv(Issue(Apply(c, s), s))
  {
    hide TicketLog, OrderLog, PaymentLog, Identifiers, Markers, TicketProjection, OrderProjection, Settlement,
         Exclusive;
    var c' := Issue(Apply(c, s), s);
    var tx := Tickets.Handle(c.tickets, s.event, s.eventId);
    if tx.RolledBack? || s.event.eventId in c.tickets.processed {
      NothingHappened(c, c');
    } else {
      assert s.eventId == Generated(s)[0] && s.eventId in c'.issued;
      FirstDeliveryInv(c, c', s.event, s.eventId);
    }
  }
}
