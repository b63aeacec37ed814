/** What never goes back, whatever happens: logs and processed ids only grow, identities and
    terminal rows are final, versions do not decrease. */
module Growth {
  import opened Events
  import opened Saga
  import opened Invariants
  import Tickets
  import Orders
  import Payments

  predicate TicketsGrow(t: Tickets.Db, t': Tickets.Db) {
    && t.outbox <= t'.outbox && t.processed <= t'.processed
    && forall id | id in t.tickets :: id in t'.tickets && t.tickets[id].version <= t'.tickets[id].version
         && (t.tickets[id].version == t'.tickets[id].version ==> t.tickets[id] == t'.tickets[id])
  }

  /** An order keeps its identity, and a terminal one everything. */
  predicate OrderGrows(o: Orders.Order, o': Orders.Order) {
    && o'.id == o.id && o'.userId == o.userId && o'.ticketId == o.ticketId && o'.expiresAt == o.expiresAt
    && o.version <= o'.version && (o.version == o'.version ==> o == o')
    && (!Orders.Active(o.status) ==> o == o')
  }

  predicate OrdersGrow(o: Orders.Db, o': Orders.Db) {
    && o.outbox <= o'.outbox && o.processed <= o'.processed
    && (forall id | id in o.tickets :: id in o'.tickets && o.tickets[id].version <= o'.tickets[id].version)
    && (forall id | id in o.orders :: id in o'.orders && OrderGrows(o.orders[id], o'.orders[id]))
  }

  predicate PaymentGrows(p: Payments.Payment, p': Payments.Payment) {
    p'.id == p.id && p'.orderId == p.orderId && (p.status != Payments.Pending ==> p == p')
  }

  predicate PaymentsGrow(p: Payments.Db, p': Payments.Db) {
    && p.outbox <= p'.outbox && p.processed <= p'.processed
    && (forall id | id in p.orders :: id in p'.orders)
    && (forall id | id in p.payments :: id in p'.payments && PaymentGrows(p.payments[id], p'.payments[id]))
  }

  predicate Grows(c: Core, c': Core) {
    && TicketsGrow(c.tickets, c'.tickets) && OrdersGrow(c.orders, c'.orders) && PaymentsGrow(c.payments, c'.payments)
    && c.now <= c'.now && c.issued <= c'.issued
  }

  lemma TicketsHandleGrows(t: Tickets.Db, e: Event, newEventId: Uuid)
    ensures TicketsGrow(t, Tickets.Handle(t, e, newEventId).After(t))
  {
  }

  lemma OrdersHandleGrows(o: Orders.Db, e: Event, newEventId: Uuid)
    ensures OrdersGrow(o, Orders.Handle(o, e, newEventId).After(o))
  {
  }

  lemma PaymentsHandleGrows(p: Payments.Db, e: Event)
    ensures PaymentsGrow(p, Payments.Handle(p, e).After(p))
  {
  }

  lemma TicketsStepGrows(c: Core, s: Step)
    ensures TicketsGrow(c.tickets, Next(c, s).tickets)
  {
    hide Tickets.Handle, Orders.Handle, Payments.Handle;
    if s.Handle? {
      TicketsHandleGrows(c.tickets, s.event, s.eventId);
    }
  }

  lemma OrdersStepGrows(c: Core, s: Step)
    ensures OrdersGrow(c.orders, Next(c, s).orders)
  {
    hide Tickets.Handle, Orders.Handle, Payments.Handle;
    if s.Handle? {
      OrdersHandleGrows(c.orders, s.event, s.eventId);
    }
  }

  lemma PaymentsStepGrows(c: Core, s: Step)
    ensures PaymentsGrow(c.payments, Next(c, s).payments)
  {
    hide Tickets.Handle, Orders.Handle, Payments.Handle;
    if s.Handle? {
      PaymentsHandleGrows(c.payments, s.event);
    }
  }

  lemma NextGrows(c: Core, s: Step)
    ensures Grows(c, Next(c, s))
  {
    hide Tickets.Handle, Orders.Handle, Payments.Handle, TicketsGrow, OrdersGrow, PaymentsGrow;
    TicketsStepGrows(c, s);
    OrdersStepGrows(c, s);
    PaymentsStepGrows(c, s);
  }

  lemma GrowsTransitive(a: Core, b: Core, c: Core)
    requires Grows(a, b) && Grows(b, c)
    ensures Grows(a, c)
  {
    forall id | id in a.orders.orders
      ensures id in c.orders.orders && OrderGrows(a.orders.orders[id], c.orders.orders[id])
    {
      assert OrderGrows(a.orders.orders[id], b.orders.orders[id]);
    }
    forall id | id in a.payments.payments
      ensures id in c.payments.payments && PaymentGrows(a.payments.payments[id], c.payments.payments[id])
    {
      assert PaymentGrows(a.payments.payments[id], b.payments.payments[id]);
    }
  }

  /** Every continuation of every state only grows it. */
  lemma {:induction false} ExecGrows(c: Core, steps: seq<Step>)
    ensures Grows(c, Exec(c, steps))
  {
    hide Grows, Next;
    if steps == [] {
      GrowsReflexive(c);
    } else {
      var front := steps[..|steps| - 1];
      ExecGrows(c, front);
      NextGrows(Exec(c, front), steps[|steps| - 1]);
      GrowsTransitive(c, Exec(c, front), Exec(c, steps));
    }
  }

  lemma GrowsReflexive(c: Core)
    ensures Grows(c, c)
  {
  }

  lemma {:induction false} HistoryPrefix(log: seq<Event>, log': seq<Event>, t: Uuid)
    requires log <= log'
    ensures History(log, t) <= History(log', t)
  {
    if log == log' {
    } else {
      HistoryPrefix(log, log'[..|log'| - 1], t);
    }
  }

  /** Processing is permanent. */
  lemma ProcessedGrows(c: Core, c': Core, at: Service)
    requires Grows(c, c')
    ensures Processed(c, at) <= Processed(c', at)
  {
  }
}
