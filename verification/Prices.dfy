/** Where the price of an order comes from: a snapshot of its ticket that Tickets committed, and
    the amount Payments is to charge is that price. */
module Prices {
  import opened Events
  import opened Saga
  import opened Invariants
  import Tickets
  import Orders
  import Payments
  import PaymentSteps
  import Growth

  /** Some committed snapshot of the ticket of the order had its price. */
  ghost predicate Asked(tickets: seq<Event>, e: Event)
    requires e.OrderCreated?
  {
    exists f :: f in tickets && f.Ticket?() && f.ticketId == e.ticketId && f.price == e.price
  }

  /** The row of Payments repeats the creation event of its order. */
  ghost predicate Charged(orders: seq<Event>, id: Uuid, row: Payments.OrderRow) {
    exists e :: e in orders && e.OrderCreated? && e.orderId == id && e.price == row.price && e.userId == row.userId
  }

  ghost predicate Priced(c: Core) {
    && (forall e | e in c.orders.outbox && e.OrderCreated? :: Asked(c.tickets.outbox, e))
    && (forall id | id in c.payments.orders :: Charged(c.orders.outbox, id, c.payments.orders[id]))
  }

  /** The snapshot behind Orders' copy of a ticket. */
  lemma CopyIsCommitted(c: Core, t: Uuid) returns (f: Event)
    requires Inv(c) && t in c.orders.tickets
    ensures f in c.tickets.outbox && f.Ticket?() && f.ticketId == t && Orders.RowOf(f) == c.orders.tickets[t]
  {
    assert Snapshot(c.tickets, c.orders.tickets[t], t);
    f := History(c.tickets.outbox, t)[c.orders.tickets[t].version];
    HistoryMembers(c.tickets.outbox, t, f);
  }

  /** A new OrderCreated comes from a reservation, at the price of Orders' copy. */
  lemma NewCreation(c: Core, s: Step, e: Event)
    requires e in Next(c, s).orders.outbox && e !in c.orders.outbox && e.OrderCreated?
    ensures e.ticketId in c.orders.tickets && e.price == c.orders.tickets[e.ticketId].price
  {
    hide Tickets.Handle, Payments.Handle, Orders.IsBlockingOrder;
  }

  /** A row of Payments that is new or changed comes from an event of Orders, or kept its price and user. */
  lemma NewRow(c: Core, s: Step, id: Uuid)
    requires id in Next(c, s).payments.orders
    ensures var row := Next(c, s).payments.orders[id];
            || (id in c.payments.orders && row.price == c.payments.orders[id].price
                && row.userId == c.payments.orders[id].userId)
            || Charged(c.orders.outbox, id, row)
  {
    hide Tickets.Handle, Orders.Handle, Payments.IsPaymentOf, Payments.IsNextPending;
    if s.Handle? && s.at == AtPayments && Enabled(c, s) && !(id in c.payments.orders) {
      assert s.event in c.orders.outbox && s.event.OrderCreated?;
    }
  }

  lemma AskedStays(tickets: seq<Event>, tickets': seq<Event>, e: Event)
    requires e.OrderCreated? && tickets <= tickets' && Asked(tickets, e)
    ensures Asked(tickets', e)
  {
    var f :| f in tickets && f.Ticket?() && f.ticketId == e.ticketId && f.price == e.price;
    assert f in tickets';
  }

  lemma ChargedStays(orders: seq<Event>, orders': seq<Event>, id: Uuid, row: Payments.OrderRow, row': Payments.OrderRow)
    requires orders <= orders' && Charged(orders, id, row) && row'.price == row.price && row'.userId == row.userId
    ensures Charged(orders', id, row')
  {
    var e :| e in orders && e.OrderCreated? && e.orderId == id && e.price == row.price && e.userId == row.userId;
    assert e in orders';
  }

  lemma NextPriced(c: Core, s: Step)
    requires Inv(c) && Priced(c)
    ensures Priced(Next(c, s))
  {
    hide Next, Inv, Asked, Charged;
    var c' := Next(c, s);
    Growth.NextGrows(c, s);
    forall e | e in c'.orders.outbox && e.OrderCreated?
      ensures Asked(c'.tickets.outbox, e)
    {
      if e !in c.orders.outbox {
        NewCreation(c, s, e);
        var f := CopyIsCommitted(c, e.ticketId);
        CopyIsAsked(c.tickets.outbox, e, f);
      }
      AskedStays(c.tickets.outbox, c'.tickets.outbox, e);
    }
    forall id | id in c'.payments.orders
      ensures Charged(c'.orders.outbox, id, c'.payments.orders[id])
    {
      NewRow(c, s, id);
      var told := Charged(c.orders.outbox, id, c'.payments.orders[id]);
      var row := if told then c'.payments.orders[id] else c.payments.orders[id];
      ChargedStays(c.orders.outbox, c'.orders.outbox, id, row, c'.payments.orders[id]);
    }
  }

  lemma CopyIsAsked(tickets: seq<Event>, e: Event, f: Event)
    requires e.OrderCreated? && f in tickets && f.Ticket?() && f.ticketId == e.ticketId && f.price == e.price
    ensures Asked(tickets, e)
  {
  }

  lemma {:induction false} ExecPriced(now: int, steps: seq<Step>)
    ensures Priced(Exec(Initial(now), steps))
  {
    hide Next, Inv;
    if steps != [] {
      var front := steps[..|steps| - 1];
      ExecPriced(now, front);
      InitialInv(now);
      PaymentSteps.ExecInv(Initial(now), front);
      NextPriced(Exec(Initial(now), front), steps[|steps| - 1]);
    }
  }

  lemma RowIsCharged(c: Core, o: Uuid)
    requires Reachable(c) && o in c.payments.orders
    ensures Charged(c.orders.outbox, o, c.payments.orders[o])
  {
    hide Next, Charged, Asked;
    var now: int, steps: seq<Step> :| c == Exec(Initial(now), steps);
    ExecPriced(now, steps);
  }

  /** In every reachable state what Payments is to charge for an order, and whom, is what its
      creation event says, and that price is one its ticket had at a version Tickets committed. */
  lemma ChargedWhatWasAsked(c: Core, o: Uuid) returns (created: Event, asked: Event)
    requires Reachable(c) && o in c.payments.orders
    ensures created in c.orders.outbox && created.OrderCreated? && created.orderId == o
    ensures c.payments.orders[o].price == created.price && c.payments.orders[o].userId == created.userId
    ensures o in c.orders.orders && created.userId == c.orders.orders[o].userId
            && created.ticketId == c.orders.orders[o].ticketId
    ensures asked in c.tickets.outbox && asked.Ticket?() && asked.ticketId == created.ticketId
            && asked.price == created.price
    ensures asked.ticketId in c.tickets.tickets && 0 <= asked.version <= c.tickets.tickets[asked.ticketId].version
    ensures c.payments.orders[o].price > 0
  {
    PaymentSteps.ReachableInv(c);
    var now: int, steps: seq<Step> :| c == Exec(Initial(now), steps);
    ExecPriced(now, steps);
    assert Charged(c.orders.outbox, o, c.payments.orders[o]);
    created :| created in c.orders.outbox && created.OrderCreated? && created.orderId == o
               && created.price == c.payments.orders[o].price && created.userId == c.payments.orders[o].userId;
    assert TrueOrderEvent(c.orders.orders, created);
    assert Asked(c.tickets.outbox, created);
    asked :| asked in c.tickets.outbox && asked.Ticket?() && asked.ticketId == created.ticketId
      && asked.price == created.price;
    EventAtVersion(c.tickets, asked);
  }
}
