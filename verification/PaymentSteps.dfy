/** Every transaction of the Payments service keeps the invariant. */
module PaymentSteps {
  import opened Events
  import opened Saga
  import opened Invariants
  import Orders
  import Payments
  import TicketSteps
  import OrderSteps

  // ----- The ledger -----

  lemma IdentifiersPaymentEvent(c: Core, c': Core, e: Event)
    requires Identifiers(c)
    requires c'.payments.outbox == c.payments.outbox + [e] && c'.payments.processed == c.payments.processed
    requires c'.tickets == c.tickets && c'.orders == c.orders
    requires c.issued <= c'.issued && e.eventId in c'.issued && e.eventId !in c.issued
    ensures Identifiers(c')
  {
    assert forall f :: Logged(c', f) <==> Logged(c, f) || f == e;
    var log, log' := c.payments.outbox, c'.payments.outbox;
    forall i, j | 0 <= i < j < |log'|
      ensures log'[i].eventId != log'[j].eventId
    {
      assert Logged(c, log[i]);
    }
  }

  lemma HasAppend(log: seq<Event>, e: Event, p: Payments.Payment)
    ensures HasPaymentCreated(log, p) || (e.PaymentCreated? && e.paymentId == p.id && e.orderId == p.orderId)
            ==> HasPaymentCreated(log + [e], p)
    ensures HasResult(log, p) ==> HasResult(log + [e], p)
    ensures e.PaymentResult?() && e.paymentId == p.id && e.orderId == p.orderId
            && (e.PaymentSucceeded? <==> p.status == Payments.Succeeded)
            ==> HasResult(log + [e], p)
  {
    assert e in log + [e];
    assert forall f :: f in log ==> f in log + [e];
  }

  lemma OncePerPaymentAppend(log: seq<Event>, e: Event)
    requires OncePerPayment(log) && e.Payment?()
    requires forall f | f in log && f.Payment?() && f.paymentId == e.paymentId :: f.PaymentCreated? != e.PaymentCreated?
    ensures OncePerPayment(log + [e])
  {
  }

  lemma LedgerCreate(p: Payments.Db, created: Payments.Payment, e: Event)
    requires PaymentLog(p) && created.id !in p.payments && created.status == Payments.Pending
             && created.orderId in p.orders
    requires Payments.PaymentsOf(p, created.orderId) == {}
    requires e.PaymentCreated? && e.paymentId == created.id && e.orderId == created.orderId
    ensures PaymentLog(Payments.Put(p, created, e))
  {
    var p' := Payments.Put(p, created, e);
    forall id | id in p'.payments
      ensures PaymentRow(p', id)
      ensures id != created.id ==> p'.payments[id].orderId != created.orderId
    {
      HasAppend(p.outbox, e, p'.payments[id]);
      if id != created.id {
        assert PaymentRow(p, id);
        assert id !in Payments.PaymentsOf(p, created.orderId);
      }
    }
    forall f | f in p.outbox
      ensures TruePaymentEvent(p'.payments, f) && f.paymentId != created.id
    {
      assert TruePaymentEvent(p.payments, f);
    }
    OncePerPaymentAppend(p.outbox, e);
  }

  /** A pending payment has no result in the log yet. */
  lemma PendingHasNoResult(p: Payments.Db, id: Uuid, f: Event)
    requires PaymentLog(p) && id in p.payments && p.payments[id].status == Payments.Pending && f in p.outbox
    ensures f.Payment?() && (f.paymentId == id ==> f.PaymentCreated?)
    ensures forall status :: TruePaymentEvent(p.payments[id := p.payments[id].(status := status)], f)
  {
    assert TruePaymentEvent(p.payments, f);
  }

  lemma LedgerResolve(p: Payments.Db, p': Payments.Db, id: Uuid, status: Payments.PaymentStatus, eventId: Uuid)
    requires PaymentLog(p) && id in p.payments && p.payments[id].status == Payments.Pending
             && status != Payments.Pending
    requires var resolved := p.payments[id].(status := status);
             p' == p.(payments := p.payments[id := resolved],
                      outbox := p.outbox + [Payments.ResultEvent(eventId, resolved)])
    ensures PaymentLog(p')
  {
    var e := Payments.ResultEvent(eventId, p'.payments[id]);
    assert PaymentRow(p, id);
    forall x | x in p'.payments
      ensures PaymentRow(p', x)
    {
      assert PaymentRow(p, x);
      HasAppend(p.outbox, e, p'.payments[x]);
      HasAppend(p.outbox, e, p.payments[x]);
    }
    forall f | f in p.outbox
      ensures TruePaymentEvent(p'.payments, f) && (f.paymentId == id ==> f.PaymentCreated?)
    {
      PendingHasNoResult(p, id, f);
    }
    OncePerPaymentAppend(p.outbox, e);
  }

  lemma SettlementGrows(o: Orders.Db, p: Payments.Db, p': Payments.Db, e: Event)
    requires Settlement(o, p) && p'.outbox == p.outbox + [e] && e.eventId !in o.processed
    requires forall id | id in p.payments :: id in p'.payments && p'.payments[id].orderId == p.payments[id].orderId
    ensures Settlement(o, p')
  {
    assert forall f :: f in p.outbox ==> f in p'.outbox;
    forall id | HasPayment(p, id)
      ensures HasPayment(p', id)
    {
      var x :| x in p.payments && p.payments[x].orderId == id;
      assert x in p'.payments;
    }
  }

  lemma OrderProjectionLedger(o: Orders.Db, p: Payments.Db, p': Payments.Db)
    requires OrderProjection(o, p) && p'.orders == p.orders && p'.processed == p.processed
    ensures OrderProjection(o, p')
  {
    forall id | id in p'.orders
      ensures OrderSnapshot(o, p'.orders[id], id)
    {
      assert OrderSnapshot(o, p.orders[id], id);
    }
  }

  /** Assembles the invariant after a change of the ledger. */
  lemma LedgerInv(c: Core, c': Core, e: Event)
    requires Inv(c) && c' == c.(payments := c'.payments, issued := c'.issued)
    requires c'.payments.outbox == c.payments.outbox + [e]
    requires c'.payments.orders == c.payments.orders && c'.payments.processed == c.payments.processed
    requires forall id | id in c.payments.payments ::
             id in c'.payments.payments && c'.payments.payments[id].orderId == c.payments.payments[id].orderId
    requires PaymentLog(c'.payments)
    requires c.issued <= c'.issued && e.eventId in c'.issued && e.eventId !in c.issued
    ensures Inv(c')
  {
    hide TicketLog, OrderLog, PaymentLog, Identifiers, Markers, TicketProjection, OrderProjection, Settlement,
         Exclusive;
    OrderSteps.UnissuedIsUnprocessed(c, e.eventId);
    IdentifiersPaymentEvent(c, c', e);
    OrderProjectionLedger(c.orders, c.payments, c'.payments);
    SettlementGrows(c.orders, c.payments, c'.payments, e);
  }

  // ----- The projection -----

  lemma LedgerFrame(p: Payments.Db, p': Payments.Db)
    requires PaymentLog(p) && p'.payments == p.payments && p'.outbox == p.outbox && p.orders.Keys <= p'.orders.Keys
    ensures PaymentLog(p')
  {
    forall id | id in p'.payments
      ensures PaymentRow(p', id)
    {
      assert PaymentRow(p, id);
    }
  }

  lemma SettlementFrame(o: Orders.Db, p: Payments.Db, p': Payments.Db)
    requires Settlement(o, p) && p'.payments == p.payments && p'.outbox == p.outbox
    ensures Settlement(o, p')
  {
    assert forall id :: HasPayment(p, id) ==> HasPayment(p', id);
  }

  /** `e` is processed and the projection shows it. */
  lemma ProjectionRecord(c: Core, p': Payments.Db, e: Event)
    requires Identifiers(c) && OrderProjection(c.orders, c.payments) && e in c.orders.outbox && e.Order?()
    requires p'.processed == c.payments.processed + {e.eventId}
    requires e.orderId in p'.orders && p'.orders == c.payments.orders[e.orderId := p'.orders[e.orderId]]
    requires OrderSnapshot(c.orders, p'.orders[e.orderId], e.orderId)
    requires e.orderId in c.payments.orders && c.payments.orders[e.orderId].status == Canceled ==>
             p'.orders[e.orderId].status == Canceled
    requires e.OrderCanceled? ==> e.version == 1 && p'.orders[e.orderId].status == Canceled
    ensures OrderProjection(c.orders, p')
  {
    assert Logged(c, e);
    assert forall f | f in c.orders.outbox :: Logged(c, f);
    forall id | id in p'.orders
      ensures OrderSnapshot(c.orders, p'.orders[id], id)
    {
      if id != e.orderId {
        assert OrderSnapshot(c.orders, c.payments.orders[id], id);
      }
    }
  }

  /** What Payments meets when it processes a creation for the first time. */
  lemma UpsertShows(c: Core, e: Event)
    requires OrderLog(c.orders) && OrderProjection(c.orders, c.payments) && e in c.orders.outbox && e.OrderCreated?
    requires e.eventId !in c.payments.processed
    requires Payments.Handle(c.payments, e).Committed?
    ensures var p' := Payments.Handle(c.payments, e).db;
            && p'.processed == c.payments.processed + {e.eventId}
            && p'.payments == c.payments.payments && p'.outbox == c.payments.outbox
            && e.orderId in p'.orders && p'.orders == c.payments.orders[e.orderId := p'.orders[e.orderId]]
            && OrderSnapshot(c.orders, p'.orders[e.orderId], e.orderId)
            && (e.orderId in c.payments.orders ==> p'.orders[e.orderId] == c.payments.orders[e.orderId])
  {
    assert TrueOrderEvent(c.orders.orders, e);
    if e.orderId in c.payments.orders {
      assert OrderSnapshot(c.orders, c.payments.orders[e.orderId], e.orderId);
    }
  }

  /** A cancellation is applied only if its version is 1. */
  lemma CancelShows(c: Core, e: Event)
    requires OrderLog(c.orders) && OrderProjection(c.orders, c.payments) && e in c.orders.outbox && e.OrderCanceled?
    requires e.eventId !in c.payments.processed
    requires Payments.Handle(c.payments, e).Committed?
    ensures var p' := Payments.Handle(c.payments, e).db;
            && e.version == 1
            && p'.processed == c.payments.processed + {e.eventId}
            && p'.payments == c.payments.payments && p'.outbox == c.payments.outbox
            && e.orderId in c.payments.orders && e.orderId in p'.orders
            && p'.orders == c.payments.orders[e.orderId := p'.orders[e.orderId]]
            && OrderSnapshot(c.orders, p'.orders[e.orderId], e.orderId)
            && p'.orders[e.orderId].status == Canceled
  {
    assert TrueOrderEvent(c.orders.orders, e);
    assert OrderRow(c.orders, e.orderId);
    assert OrderSnapshot(c.orders, c.payments.orders[e.orderId], e.orderId);
  }

  lemma FirstDeliveryInv(c: Core, c': Core, e: Event)
    requires Inv(c) && e in c.orders.outbox && e.Order?() && e.eventId !in c.payments.processed
    requires Payments.Handle(c.payments, e).Committed? && c'.payments == Payments.Handle(c.payments, e).db
    requires c' == c.(payments := c'.payments, issued := c'.issued) && c.issued <= c'.issued
    ensures Inv(c')
  {
    hide TicketLog, OrderLog, PaymentLog, Identifiers, Markers, TicketProjection, OrderProjection, Settlement,
         Exclusive, OrderSnapshot, Payments.Handle;
    OrderSteps.LoggedIsIssued(c, e);
    OrderSteps.ProcessedIsIssued(c);
    if e.OrderCreated? {
      UpsertShows(c, e);
    } else {
      CancelShows(c, e);
    }
    ProjectionRecord(c, c'.payments, e);
    LedgerFrame(c.payments, c'.payments);
    SettlementFrame(c.orders, c.payments, c'.payments);
    TicketSteps.IdentifiersSame(c, c');
  }

  // ----- The transactions -----

  lemma CreatePaymentInv(c: Core, s: Step)
    requires Inv(c) && s.CreatePayment? && Enabled(c, s)
    ensures Inv(Issue(Apply(c, s), s))
  {
    hide TicketLog, OrderLog, PaymentLog, Identifiers, Markers, TicketProjection, OrderProjection, Settlement,
         Exclusive;
    var c' := Issue(Apply(c, s), s);
    var tx := Payments.Create(c.payments, s.orderId, s.userId, s.existing, s.paymentId, s.eventId);
    if tx.RolledBack? || !tx.value.created {
      TicketSteps.NothingHappened(c, c');
    } else {
      assert Generated(s)[1] == s.eventId && s.eventId in c'.issued;
      var e := PaymentCreated(s.eventId, s.paymentId, s.orderId);
      LedgerCreate(c.payments, tx.value.payment, e);
      LedgerInv(c, c', e);
    }
  }

  lemma ResolvePaymentInv(c: Core, s: Step)
    requires Inv(c) && s.ResolvePayment? && Enabled(c, s)
    ensures Inv(Issue(Apply(c, s), s))
  {
    hide TicketLog, OrderLog, PaymentLog, Identifiers, Markers, TicketProjection, OrderProjection, Settlement,
         Exclusive;
    var c' := Issue(Apply(c, s), s);
    if s.pick.None? || Payments.StatusForOutcome(s.outcome).None? {
      TicketSteps.NothingHappened(c, c');
    } else {
      assert Generated(s)[0] == s.eventId && s.eventId in c'.issued;
      assert Payments.Claimable(c.payments, s.skip, s.pick.value);
      LedgerResolve(c.payments, c'.payments, s.pick.value, Payments.StatusForOutcome(s.outcome).value, s.eventId);
      LedgerInv(c, c', Payments.ResultEvent(s.eventId, c'.payments.payments[s.pick.value]));
    }
  }

  lemma PaymentsHandleInv(c: Core, s: Step)
    requires Inv(c) && s.Handle? && s.at == AtPayments && Enabled(c, s)
    ensures Inv(Issue(Apply(c, s), s))
  {
    hide TicketLog, OrderLog, PaymentLog, Identifiers, Markers, TicketProjection, OrderProjection, Settlement,
         Exclusive;
    var c' := Issue(Apply(c, s), s);
    if Payments.Handle(c.payments, s.event).RolledBack? || s.event.eventId in c.payments.processed {
      TicketSteps.NothingHappened(c, c');
    } else {
      FirstDeliveryInv(c, c', s.event);
    }
  }

  // ----- All steps -----

  lemma ExclusiveTick(orders: map<Uuid, Orders.Order>, now: int, later: int)
    requires Exclusive(orders, now) && now <= later
    ensures Exclusive(orders, later)
  {
  }

  lemma NextInv(c: Core, s: Step)
    requires Inv(c)
    ensures Inv(Next(c, s))
  {
    hide TicketLog, OrderLog, PaymentLog, Identifiers, Markers, TicketProjection, OrderProjection, Settlement,
         Exclusive;
    if Enabled(c, s) {
      match s
      case Tick(to) =>
        ExclusiveTick(c.orders.orders, c.now, to);
        TicketSteps.IdentifierFacts(c);
        TicketSteps.IdentifiersSame(c, Next(c, s));
      case CreateTicket(_, _, _, _, _) => TicketSteps.CreateTicketInv(c, s);
      case UpdateTicket(_, _, _, _, _) => TicketSteps.UpdateTicketInv(c, s);
      case ReserveTicket(_, _, _, _, _, _, _) => OrderSteps.ReserveInv(c, s);
      case CancelOrder(_, _, _) => OrderSteps.CancelOrderInv(c, s);
      case CreatePayment(_, _, _, _, _) => CreatePaymentInv(c, s);
      case ResolvePayment(_, _, _, _) => ResolvePaymentInv(c, s);
      case Handle(at, _, _) =>
        match at {
          case AtTickets => TicketSteps.TicketsHandleInv(c, s);
          case AtOrders => OrderSteps.OrdersHandleInv(c, s);
          case AtPayments => PaymentsHandleInv(c, s);
        }
    }
  }

  lemma {:induction false} ExecInv(c: Core, steps: seq<Step>)
    requires Inv(c)
    ensures Inv(Exec(c, steps))
  {
    hide Inv, Next;
    if steps != [] {
      ExecInv(c, steps[..|steps| - 1]);
      NextInv(Exec(c, steps[..|steps| - 1]), steps[|steps| - 1]);
    }
  }

  /** The invariant holds in every reachable state. */
  lemma ReachableInv(c: Core)
    requires Reachable(c)
    ensures Inv(c)
  {
    hide Inv;
    var now: int, steps: seq<Step> :| c == Exec(Initial(now), steps);
    InitialInv(now);
    ExecInv(Initial(now), steps);
  }
}
