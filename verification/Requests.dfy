/** What the users' requests are answered, and what they leave behind, told from what happened:
    from the events that were processed and emitted rather than from the rows that are looked up. */
module Requests {
  import opened Events
  import opened Saga
  import opened Invariants
  import Tickets
  import Orders
  import Payments
  import PaymentSteps
  import Reservations
  import Money
  import Growth

  // ----- Tickets -----

  /** The fields a ticket may have. */
  predicate Offerable(title: string, price: int, user: string) {
    !Blank(title) && 0 < price <= 9_007_199_254_740_991 && user != ""
  }

  lemma TicketCreationAnswers(db: Tickets.Db, title: string, price: int, user: string, id: Uuid, eventId: Uuid)
    ensures var tx := Tickets.CreateTicket(db, title, price, user, id, eventId);
            var row := Tickets.Ticket(id, title, price, user, None, 0);
            && (!Offerable(title, price, user) ==> tx == RolledBack(InvalidInput))
            && (Offerable(title, price, user) && id in db.tickets ==> tx == RolledBack(ConstraintViolation))
            && (Offerable(title, price, user) && id !in db.tickets ==>
                  tx == Committed(Tickets.Db(db.tickets[id := row], db.processed,
                                             db.outbox + [TicketCreated(eventId, 0, id, title, price, user)]), row))
  {
  }

  /** Some order is on the ticket: Tickets has processed its creation and not its cancellation. */
  ghost predicate OnHold(c: Core, t: Uuid) {
    exists o :: o in c.orders.orders && c.orders.orders[o].ticketId == t && Holds(c.tickets, c.orders, o)
  }

  /** An update by the seller of a ticket that no order is on gives it exactly the requested title
      and price, at the next version, and says so in the log; any other leaves everything as it is. */
  lemma TicketUpdateAnswers(c: Core, id: Uuid, title: string, price: int, user: string, eventId: Uuid)
    requires Reachable(c)
    ensures var tx := Tickets.UpdateTicket(c.tickets, id, title, price, user, eventId);
            var tickets := c.tickets.tickets;
            if !Offerable(title, price, user) then tx == RolledBack(InvalidInput)
            else if id !in tickets || tickets[id].userId != user then tx == RolledBack(NotFound)
            else if OnHold(c, id) then tx == RolledBack(Reserved)
            else
              var v := tickets[id].version + 1;
              var row := Tickets.Ticket(id, title, price, user, None, v);
              tx == Committed(Tickets.Db(tickets[id := row], c.tickets.processed,
                                         c.tickets.outbox + [TicketUpdated(eventId, v, id, title, price, user)]), row)
    ensures var s := UpdateTicket(id, title, price, user, eventId);
            Next(c, s).tickets == if Enabled(c, s)
              then Tickets.UpdateTicket(c.tickets, id, title, price, user, eventId).After(c.tickets)
                                  else c.tickets
  {
    hide Reachable, Holds;
    if id in c.tickets.tickets {
      MarkedIffOnHold(c, id);
    }
  }

  lemma MarkedIffOnHold(c: Core, t: Uuid)
    requires Reachable(c) && t in c.tickets.tickets
    ensures c.tickets.tickets[t].reservedBy.Some? <==> OnHold(c, t)
    ensures c.tickets.tickets[t].id == t
  {
    hide Holds;
    PaymentSteps.ReachableInv(c);
    assert GapFree(c.tickets.tickets[t], t, History(c.tickets.outbox, t));
    forall o
      ensures c.tickets.tickets[t].reservedBy == Some(o)
              <==> o in c.orders.orders && c.orders.orders[o].ticketId == t && Holds(c.tickets, c.orders, o)
    {
      Reservations.MarkerIsTheHolder(c, t, o);
    }
  }

  /** What a buyer is offered. */
  datatype Offer = Offer(title: string, price: int, seller: string)

  function OfferOf(t: Tickets.Ticket): Offer {
    Offer(t.title, t.price, t.userId)
  }

  /** The step asks for ticket `t` to have this offer. */
  predicate AsksFor(s: Step, t: Uuid, offer: Offer) {
    || (s.CreateTicket? && s.ticketId == t && offer == Offer(s.title, s.price, s.userId))
    || (s.UpdateTicket? && s.id == t && offer == Offer(s.title, s.price, s.userId))
  }

  /** Nothing but a request of the seller changes title or price, and nothing changes the seller. */
  lemma OnlyRequestsChangeTheOffer(c: Core, s: Step, t: Uuid)
    requires t in Next(c, s).tickets.tickets
    ensures t in c.tickets.tickets ==> Next(c, s).tickets.tickets[t].userId == c.tickets.tickets[t].userId
    ensures var offer := OfferOf(Next(c, s).tickets.tickets[t]);
            (t in c.tickets.tickets && offer == OfferOf(c.tickets.tickets[t])) || AsksFor(s, t, offer)
  {
    hide Orders.Handle, Payments.Handle;
  }

  /** In every run the offer of a ticket is that of one request, which from then on stood. */
  lemma {:induction false} OfferIsTheLastRequest(now: int, steps: seq<Step>, t: Uuid) returns (i: nat)
    requires t in Exec(Initial(now), steps).tickets.tickets
    ensures var offer := OfferOf(Exec(Initial(now), steps).tickets.tickets[t]);
            && i < |steps| && AsksFor(steps[i], t, offer)
            && forall j | i < j <= |steps| ::
                 t in Exec(Initial(now), steps[..j]).tickets.tickets
                 && OfferOf(Exec(Initial(now), steps[..j]).tickets.tickets[t]) == offer
  {
    hide Next, AsksFor;
    i := 0;
    if steps != [] {
      var n := |steps| - 1;
      var front := steps[..n];
      var before := Exec(Initial(now), front);
      OnlyRequestsChangeTheOffer(before, steps[n], t);
      assert steps[..|steps|] == steps;
      if t in before.tickets.tickets
        && OfferOf(before.tickets.tickets[t]) == OfferOf(Exec(Initial(now), steps).tickets.tickets[t]) {
        i := OfferIsTheLastRequest(now, front, t);
        assert forall j | 0 <= j <= n :: front[..j] == steps[..j];
      } else {
        i := n;
      }
    }
  }

  // ----- Orders -----

  /** A cancellation is answered by the state of the order: its user cancels it as long as it is
      Created or AwaitingPayment, finds it canceled afterwards, and cannot cancel what is paid. */
  lemma CancellationAnswers(c: Core, o: Uuid, user: string, eventId: Uuid)
    requires Reachable(c)
    ensures var tx := Orders.CancelByIDAndUser(c.orders, o, user, eventId); var orders := c.orders.orders;
            if o !in orders || orders[o].userId != user then tx == RolledBack(OrderNotFound)
            else match orders[o].status
                 case Complete => tx == RolledBack(OrderNotCancelable)
                 case Canceled => tx == Committed(c.orders, orders[o])
                 case _ =>
                   var v := if orders[o].status == Created then 1 else 2;
                   var row := Orders.Order(o, orders[o].expiresAt, user, orders[o].ticketId, Canceled, v);
                   tx == Committed(Orders.Db(c.orders.tickets, orders[o := row], c.orders.processed,
                                             c.orders.outbox + [OrderCanceled(eventId, o, v, orders[o].ticketId)]), row)
  {
    hide Reachable;
    if o in c.orders.orders {
      RowFacts(c, o);
    }
  }

  lemma RowFacts(c: Core, o: Uuid)
    requires Reachable(c) && o in c.orders.orders
    ensures c.orders.orders[o].id == o && LifecycleVersion(c.orders.orders[o])
  {
    PaymentSteps.ReachableInv(c);
    assert OrderRow(c.orders, o);
  }

  /** A reservation finds the ticket exactly if Orders has processed an event of it. */
  lemma TicketIsKnownIffProcessed(c: Core, t: Uuid)
    requires Reachable(c)
    ensures t in c.orders.tickets <==> exists e ::
            e in c.tickets.outbox && e.Ticket?() && e.ticketId == t && e.eventId in c.orders.processed
  {
    PaymentSteps.ReachableInv(c);
    if t in c.orders.tickets {
      var now: int, steps: seq<Step> :| c == Exec(Initial(now), steps);
      KnownTicketHistory(now, steps, t);
    }
  }

  lemma {:induction false} KnownTicketHistory(now: int, steps: seq<Step>, t: Uuid)
    requires t in Exec(Initial(now), steps).orders.tickets
    ensures var c := Exec(Initial(now), steps);
            exists e :: e in c.tickets.outbox && e.Ticket?() && e.ticketId == t && e.eventId in c.orders.processed
  {
    hide Next, Growth.Grows;
    if steps != [] {
      var n := |steps| - 1;
      var before := Exec(Initial(now), steps[..n]);
      Growth.NextGrows(before, steps[n]);
      if t in before.orders.tickets {
        KnownTicketHistory(now, steps[..n], t);
        var e :| e in before.tickets.outbox && e.Ticket?() && e.ticketId == t && e.eventId in before.orders.processed;
        StillProcessed(before, Next(before, steps[n]), e);
      } else {
        TicketBecomesKnown(before, steps[n], t);
      }
    }
  }

  lemma StillProcessed(c: Core, c': Core, e: Event)
    requires Growth.Grows(c, c') && e in c.tickets.outbox && e.eventId in c.orders.processed
    ensures e in c'.tickets.outbox && e.eventId in c'.orders.processed
  {
  }

  lemma TicketBecomesKnown(c: Core, s: Step, t: Uuid)
    requires t !in c.orders.tickets && t in Next(c, s).orders.tickets
    ensures var c' := Next(c, s);
            exists e :: e in c'.tickets.outbox && e.Ticket?() && e.ticketId == t && e.eventId in c'.orders.processed
  {
    hide Tickets.Handle, Payments.Handle;
    assert s.Handle? && s.at == AtOrders && Enabled(c, s);
    assert s.event in Next(c, s).tickets.outbox && s.event.eventId in Next(c, s).orders.processed;
  }

  // ----- Payments -----

  lemma KnownOrderIsCreated(c: Core, o: Uuid)
    requires Reachable(c)
    ensures o in c.payments.orders <==> CreatedProcessed(c.payments.processed, c.orders.outbox, o)
    ensures o in c.payments.orders ==> o in c.orders.orders && c.payments.orders[o].userId == c.orders.orders[o].userId
  {
    PaymentSteps.ReachableInv(c);
    if o in c.payments.orders {
      assert OrderSnapshot(c.orders, c.payments.orders[o], o);
      var now: int, steps: seq<Step> :| c == Exec(Initial(now), steps);
      KnownOrderHistory(now, steps, o);
    }
  }

  lemma {:induction false} KnownOrderHistory(now: int, steps: seq<Step>, o: Uuid)
    requires o in Exec(Initial(now), steps).payments.orders
    ensures var c := Exec(Initial(now), steps); CreatedProcessed(c.payments.processed, c.orders.outbox, o)
  {
    hide Next, Growth.Grows;
    if steps != [] {
      var n := |steps| - 1;
      var before := Exec(Initial(now), steps[..n]);
      Growth.NextGrows(before, steps[n]);
      if o in before.payments.orders {
        KnownOrderHistory(now, steps[..n], o);
        var e :| e in before.orders.outbox && e.OrderCreated? && e.orderId == o
          && e.eventId in before.payments.processed;
        Money.StillProcessed(before, Next(before, steps[n]), e);
      } else {
        OrderBecomesKnown(before, steps[n], o);
      }
    }
  }

  lemma OrderBecomesKnown(c: Core, s: Step, o: Uuid)
    requires o !in c.payments.orders && o in Next(c, s).payments.orders
    ensures CreatedProcessed(Next(c, s).payments.processed, Next(c, s).orders.outbox, o)
  {
    hide Tickets.Handle, Orders.Handle, Payments.IsPaymentOf, Payments.IsNextPending;
    assert s.Handle? && s.at == AtPayments && Enabled(c, s);
    assert s.event in Next(c, s).orders.outbox && s.event.eventId in Next(c, s).payments.processed;
  }

  /** Payments has heard of the order, and the order is this user's. */
  ghost predicate MayPay(c: Core, o: Uuid, user: string) {
    && CreatedProcessed(c.payments.processed, c.orders.outbox, o)
    && o in c.orders.orders && c.orders.orders[o].userId == user
  }

  /** A request to pay for an order: to anyone but its user, and before Payments has heard of it,
      it does not exist.  If it has a payment, that is the answer, whatever became of either.
      Otherwise it can be paid for until Payments hears of its cancellation. */
  lemma PaymentRequestAnswers(c: Core, o: Uuid, user: string, existing: Option<Uuid>, paymentId: Uuid, eventId: Uuid)
    requires Reachable(c) && Payments.IsPaymentOf(c.payments, o, existing)
    ensures var tx := Payments.Create(c.payments, o, user, existing, paymentId, eventId);
            var payments := c.payments.payments;
            && (tx == RolledBack(OrderNotFound) <==> !MayPay(c, o, user))
            && (MayPay(c, o, user) ==>
                  && (forall p | p in payments && payments[p].orderId == o ::
                        tx == Committed(c.payments, Payments.Receipt(payments[p], false)))
                  && (!HasPayment(c.payments, o) && CanceledProcessed(c.payments.processed, c.orders.outbox, o) ==>
                        tx == RolledBack(OrderNotPayable))
                  && (!HasPayment(c.payments, o) && !CanceledProcessed(c.payments.processed, c.orders.outbox, o)
                      && paymentId !in payments ==>
                        var made := Payments.Payment(paymentId, o, Payments.Pending);
                        tx == Committed(Payments.Db(c.payments.orders, payments[paymentId := made],
                                                    c.payments.processed,
                                                    c.payments.outbox + [PaymentCreated(eventId, paymentId, o)]),
                                        Payments.Receipt(made, true))))
    ensures var s := CreatePayment(o, user, existing, paymentId, eventId);
            Enabled(c, s) ==>
              Next(c, s).payments
              == Payments.Create(c.payments, o, user, existing, paymentId, eventId).After(c.payments)
  {
    hide Reachable, CreatedProcessed, Inv, Orders.Handle, Tickets.Handle, Payments.Handle;
    KnownOrderIsCreated(c, o);
    if o in c.payments.orders {
      Money.CanceledRowIffProcessed(c, o);
    }
    OnePayment(c, o);
  }

  lemma OnePayment(c: Core, o: Uuid)
    requires Reachable(c)
    ensures forall p, q | p in c.payments.payments && q in c.payments.payments
                          && c.payments.payments[p].orderId == o && c.payments.payments[q].orderId == o :: p == q
    ensures HasPayment(c.payments, o) <==> Payments.PaymentsOf(c.payments, o) != {}
  {
    PaymentSteps.ReachableInv(c);
    if HasPayment(c.payments, o) {
      var p :| p in c.payments.payments && c.payments.payments[p].orderId == o;
      assert p in Payments.PaymentsOf(c.payments, o);
    }
  }

  // ----- How a payment ends -----

  /** A payment settled as failed stays so, and its order is never completed; one settled as
      succeeded stays so, and no failure of a payment for its order is ever announced. */
  lemma {:induction false} FateOfAPayment(c: Core, s: Step, steps: seq<Step>)
    requires Reachable(c) && s.ResolvePayment? && Enabled(c, s) && s.pick.Some?
    requires s.outcome == Payments.OutcomeSuccess || s.outcome == Payments.OutcomeFailure
    ensures var c' := Exec(Next(c, s), steps); var p := s.pick.value;
            var success := s.outcome == Payments.OutcomeSuccess;
            && p in c.payments.payments && p in c'.payments.payments
            && Payments.Settles(c.payments, Next(c, s).payments, p, success, s.eventId)
            && var o := c.payments.payments[p].orderId;
               && c'.payments.payments[p] ==
                  Payments.Payment(p, o, if success then Payments.Succeeded else Payments.FailedStatus)
               && (!success ==> o in c'.orders.orders ==> c'.orders.orders[o].status != Complete)
               && (success ==> forall e | e in c'.payments.outbox :: !(e.PaymentFailed? && e.orderId == o))
  {
    hide Reachable, Inv, Payments.Settles, Payments.ResolveNextPending, Payments.IsNextPending;
    var p := s.pick.value;
    Payments.ResolutionTellsTheOutcome(c.payments, s.outcome, s.skip, s.pick, s.eventId);
    var c1 := Next(c, s);
    SettledRow(c, c1, p, s.outcome == Payments.OutcomeSuccess, s.eventId);
    Stepped(c, s);
    Growth.ExecGrows(c1, steps);
    ReachableExec(c1, steps);
    SettledForGood(c1, Exec(c1, steps), p);
  }

  lemma Stepped(c: Core, s: Step)
    requires Reachable(c)
    ensures Reachable(Next(c, s))
  {
    hide Next;
    assert [s][..0] == [];
    assert Exec(c, [s]) == Next(c, s);
    ReachableExec(c, [s]);
  }

  lemma SettledRow(c: Core, c1: Core, p: Uuid, success: bool, eventId: Uuid)
    requires Reachable(c) && Payments.Settles(c.payments, c1.payments, p, success, eventId)
    ensures p in c.payments.payments && p in c1.payments.payments
    ensures c1.payments.payments[p] == Payments.Payment(p, c.payments.payments[p].orderId,
                                                        if success then Payments.Succeeded else Payments.FailedStatus)
  {
    PaymentSteps.ReachableInv(c);
    assert PaymentRow(c.payments, p);
  }

  lemma SettledForGood(c: Core, c': Core, p: Uuid)
    requires Growth.Grows(c, c') && Reachable(c') && p in c.payments.payments
             && c.payments.payments[p].status != Payments.Pending
    ensures p in c'.payments.payments && c'.payments.payments[p] == c.payments.payments[p]
    ensures var o := c.payments.payments[p].orderId;
            && (c.payments.payments[p].status == Payments.FailedStatus && o in c'.orders.orders ==>
                c'.orders.orders[o].status != Complete)
            && (c.payments.payments[p].status == Payments.Succeeded ==>
                  forall e | e in c'.payments.outbox :: !(e.PaymentFailed? && e.orderId == o))
  {
    assert Growth.PaymentGrows(c.payments.payments[p], c'.payments.payments[p]);
    var o := c.payments.payments[p].orderId;
    if o in c'.orders.orders && c'.orders.orders[o].status == Complete {
      var q := Money.CompleteIsPaidOnce(c', o);
    }
    OnePayment(c', o);
    PaymentSteps.ReachableInv(c');
    forall e | e in c'.payments.outbox
      ensures TruePaymentEvent(c'.payments.payments, e)
    {
    }
  }
}
