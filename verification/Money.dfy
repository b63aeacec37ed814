/** Who pays what, once, and what Payments knows of the orders. */
module Money {
  import opened Events
  import opened Saga
  import opened Invariants
  import Orders
  import Payments
  import PaymentSteps
  import TicketSteps
  import Growth

  // ----- Paid once -----

  /** `p` is the payment of order `o`, the only one, and it succeeded; no failure of a payment
      of `o` was ever announced. */
  ghost predicate PaidOnce(c: Core, o: Uuid, p: Uuid) {
    && p in c.payments.payments && c.payments.payments[p] == Payments.Payment(p, o, Payments.Succeeded)
    && (forall q | q in c.payments.payments && c.payments.payments[q].orderId == o :: q == p)
    && (forall e | e in c.payments.outbox && e.Payment?() && e.orderId == o :: e.paymentId == p && !e.PaymentFailed?)
  }

  lemma CompleteIsPaidOnce(c: Core, o: Uuid) returns (p: Uuid)
    requires Reachable(c) && o in c.orders.orders && c.orders.orders[o].status == Complete
    ensures PaidOnce(c, o, p)
  {
    PaymentSteps.ReachableInv(c);
    var e :| e in c.payments.outbox && e.PaymentSucceeded? && e.orderId == o;
    assert TruePaymentEvent(c.payments.payments, e);
    p := e.paymentId;
    assert PaymentRow(c.payments, p);
    forall f | f in c.payments.outbox && f.Payment?() && f.orderId == o
      ensures f.paymentId == p && !f.PaymentFailed?
    {
      assert TruePaymentEvent(c.payments.payments, f);
    }
  }

  /** Step `i` of the run is the request of user `u` that made payment `p` of order `o`. */
  ghost predicate PaidBy(now: int, steps: seq<Step>, i: nat, u: string, o: Uuid, p: Uuid) {
    && i < |steps| && steps[i].CreatePayment? && steps[i].orderId == o && steps[i].userId == u
       && steps[i].paymentId == p
    && Enabled(Exec(Initial(now), steps[..i]), steps[i])
    && p !in Exec(Initial(now), steps[..i]).payments.payments
  }

  lemma PaymentAppearsByRequest(c: Core, s: Step, p: Uuid)
    requires p in Next(c, s).payments.payments && p !in c.payments.payments
    ensures s.CreatePayment? && Enabled(c, s) && s.paymentId == p
            && s.orderId == Next(c, s).payments.payments[p].orderId
    ensures s.orderId in c.payments.orders && s.userId == c.payments.orders[s.orderId].userId
    ensures Next(c, s).orders == c.orders
  {
    hide Orders.Handle, Payments.IsPaymentOf;
  }

  /** Payments' copy of an order names the order's own user. */
  lemma ProjectedUser(c: Core, o: Uuid)
    requires OrderProjection(c.orders, c.payments) && o in c.payments.orders
    ensures o in c.orders.orders && c.payments.orders[o].userId == c.orders.orders[o].userId
  {
    assert OrderSnapshot(c.orders, c.payments.orders[o], o);
  }

  /** A payment appears only when the user of the order asks for it. */
  lemma PaymentAppears(c: Core, s: Step, p: Uuid)
    requires Inv(c) && p in Next(c, s).payments.payments && p !in c.payments.payments
    ensures s.CreatePayment? && Enabled(c, s) && s.paymentId == p
    ensures var o := Next(c, s).payments.payments[p].orderId;
            s.orderId == o && o in c.orders.orders && s.userId == c.orders.orders[o].userId
  {
    hide Next, Enabled, OrderProjection, TicketLog, OrderLog, PaymentLog, Identifiers, Markers, TicketProjection,
         Settlement, Exclusive;
    PaymentAppearsByRequest(c, s, p);
    ProjectedUser(c, s.orderId);
  }

  /** In every run, every payment was made by the user of its order. */
  lemma {:induction false} PaymentsAreMadeByOwners(now: int, steps: seq<Step>, p: Uuid) returns (i: nat)
    requires p in Exec(Initial(now), steps).payments.payments
    ensures var c := Exec(Initial(now), steps); var o := c.payments.payments[p].orderId;
            o in c.orders.orders && PaidBy(now, steps, i, c.orders.orders[o].userId, o, p)
  {
    hide Inv, Next, Growth.PaymentsGrow;
    var c := Exec(Initial(now), steps);
    i := 0;
    if steps != [] {
      var n := |steps| - 1;
      var front := steps[..n];
      var before := Exec(Initial(now), front);
      InitialInv(now);
      PaymentSteps.ExecInv(Initial(now), front);
      Growth.NextGrows(before, steps[n]);
      if p in before.payments.payments {
        PaymentGrew(before, c, p);
        var o := before.payments.payments[p].orderId;
        i := PaymentsAreMadeByOwners(now, front, p);
        assert Growth.OrderGrows(before.orders.orders[o], c.orders.orders[o]);
        assert front[..i] == steps[..i];
      } else {
        PaymentAppears(before, steps[n], p);
        i := n;
        assert Growth.OrderGrows(before.orders.orders[steps[n].orderId], c.orders.orders[steps[n].orderId]);
      }
    }
  }

  lemma PaymentGrew(c: Core, c': Core, p: Uuid)
    requires Growth.Grows(c, c') && p in c.payments.payments
    ensures p in c'.payments.payments && c'.payments.payments[p].orderId == c.payments.payments[p].orderId
  {
    assert Growth.PaymentGrows(c.payments.payments[p], c'.payments.payments[p]);
  }

  /** In every run, a completed order was paid for once, by its own user, and that payment
      succeeded. */
  lemma CompleteIsPaidOnceByOwner(now: int, steps: seq<Step>, o: Uuid) returns (p: Uuid, i: nat)
    requires var c := Exec(Initial(now), steps); o in c.orders.orders && c.orders.orders[o].status == Complete
    ensures PaidOnce(Exec(Initial(now), steps), o, p)
    ensures PaidBy(now, steps, i, Exec(Initial(now), steps).orders.orders[o].userId, o, p)
  {
    hide Next, PaidBy;
    assert Reachable(Exec(Initial(now), steps));
    p := CompleteIsPaidOnce(Exec(Initial(now), steps), o);
    i := PaymentsAreMadeByOwners(now, steps, p);
  }

  // ----- The ledger -----

  /** The payment ids that events of a kind name. */
  function Announced(log: seq<Event>, results: bool): set<Uuid> {
    set i | 0 <= i < |log| && log[i].Payment?() && log[i].PaymentResult?() == results :: log[i].paymentId
  }

  function Settled(p: Payments.Db): set<Uuid> {
    set id | id in p.payments && p.payments[id].status != Payments.Pending
  }

  lemma RowIsAnnounced(p: Payments.Db, id: Uuid)
    requires PaymentLog(p) && id in p.payments
    ensures id in Announced(p.outbox, false)
    ensures p.payments[id].status != Payments.Pending ==> id in Announced(p.outbox, true)
  {
    assert PaymentRow(p, id);
    var e :| e in p.outbox && e.PaymentCreated? && e.paymentId == id && e.orderId == p.payments[id].orderId;
    var i :| 0 <= i < |p.outbox| && p.outbox[i] == e;
    if p.payments[id].status != Payments.Pending {
      var r :| r in p.outbox && r.PaymentResult?() && r.paymentId == id && r.orderId == p.payments[id].orderId;
      var j :| 0 <= j < |p.outbox| && p.outbox[j] == r;
    }
  }

  lemma AnnouncedHasRow(p: Payments.Db, results: bool, id: Uuid)
    requires PaymentLog(p) && id in Announced(p.outbox, results)
    ensures id in p.payments && (results ==> p.payments[id].status != Payments.Pending)
  {
    var i :| 0 <= i < |p.outbox| && p.outbox[i].Payment?() && p.outbox[i].PaymentResult?() == results
      && p.outbox[i].paymentId == id;
    assert TruePaymentEvent(p.payments, p.outbox[i]);
  }

  lemma AtMostOnePayment(p: Payments.Db, o: Uuid)
    requires PaymentLog(p)
    ensures |Payments.PaymentsOf(p, o)| <= 1
  {
    var of := Payments.PaymentsOf(p, o);
    if of != {} {
      var one :| one in of;
      assert of == {one};
    }
  }

  /** One PaymentCreated per payment, one result per settled payment, and it tells the outcome;
      an order has at most one payment. */
  lemma LedgerBalances(c: Core)
    requires Reachable(c)
    ensures Announced(c.payments.outbox, false) == c.payments.payments.Keys
    ensures Announced(c.payments.outbox, true) == Settled(c.payments)
    ensures OncePerPayment(c.payments.outbox)
    ensures forall e | e in c.payments.outbox :: TruePaymentEvent(c.payments.payments, e)
    ensures forall o :: |Payments.PaymentsOf(c.payments, o)| <= 1
  {
    PaymentSteps.ReachableInv(c);
    LedgerBalancesIn(c.payments);
  }

  lemma LedgerBalancesIn(p: Payments.Db)
    requires PaymentLog(p)
    ensures Announced(p.outbox, false) == p.payments.Keys && Announced(p.outbox, true) == Settled(p)
    ensures forall o :: |Payments.PaymentsOf(p, o)| <= 1
  {
    hide PaymentLog, Announced;
    forall id | id in p.payments
      ensures id in Announced(p.outbox, false)
              && (p.payments[id].status != Payments.Pending ==> id in Announced(p.outbox, true))
    {
      RowIsAnnounced(p, id);
    }
    forall results, id | id in Announced(p.outbox, results)
      ensures id in p.payments && (results ==> p.payments[id].status != Payments.Pending)
    {
      AnnouncedHasRow(p, results, id);
    }
    forall o
      ensures |Payments.PaymentsOf(p, o)| <= 1
    {
      AtMostOnePayment(p, o);
    }
  }

  // ----- What Payments knows of an order -----

  /** The projection of an order is absent, or (0, Created), or (1, Canceled); the last only
      when Orders canceled it straight from Created. */
  lemma ProjectionIsSafe(c: Core, o: Uuid)
    requires Reachable(c) && o in c.payments.orders
    ensures o in c.orders.orders && c.payments.orders[o].userId == c.orders.orders[o].userId
    ensures var row := c.payments.orders[o];
            || (row.version == 0 && row.status == Created)
            || (row.version == 1 && row.status == Canceled && c.orders.orders[o].status == Canceled
                && c.orders.orders[o].version == 1)
  {
    PaymentSteps.ReachableInv(c);
    assert OrderSnapshot(c.orders, c.payments.orders[o], o);
  }

  /** Delivered to a service that knows the order, a cancellation is applied if and only if its
      version is 1; otherwise it is a version gap. */
  lemma CancellationAppliesIffFromCreated(c: Core, e: Event)
    requires Reachable(c) && e in c.orders.outbox && e.OrderCanceled?
    requires e.orderId in c.payments.orders && e.eventId !in c.payments.processed
    ensures Payments.Handle(c.payments, e).Committed? <==> e.version == 1
    ensures e.version != 1 ==> Payments.Handle(c.payments, e) == RolledBack(VersionGap)
    ensures e.version == 1 ==> var p' := Payments.Handle(c.payments, e).db; p'.orders[e.orderId].status == Canceled
  {
    hide Reachable, Inv;
    CancellationMeets(c, e);
  }

  /** The projected row that a cancellation not yet processed meets is still (0, Created). */
  lemma CancellationMeets(c: Core, e: Event)
    requires Reachable(c) && e in c.orders.outbox && e.OrderCanceled?
    requires e.orderId in c.payments.orders && e.eventId !in c.payments.processed
    ensures ValidOrderEvent(e) && (e.version == 1 || e.version == 2)
    ensures c.payments.orders[e.orderId].version == 0 && c.payments.orders[e.orderId].status == Created
  {
    PaymentSteps.ReachableInv(c);
    assert TrueOrderEvent(c.orders.orders, e);
    assert OrderRow(c.orders, e.orderId);
    assert OrderSnapshot(c.orders, c.payments.orders[e.orderId], e.orderId);
    if c.payments.orders[e.orderId].status == Canceled {
      CanceledRowIsProcessed(c, e.orderId);
      var f :| f in c.orders.outbox && f.OrderCanceled? && f.orderId == e.orderId && f.eventId in c.payments.processed;
      TicketSteps.OneEventPerOrder(c.orders.outbox, e, f);
    }
  }

  /** A cancellation of version 2 is never applied and never recorded, in no continuation. */
  lemma {:induction false} VersionTwoCancellationIsLost(c: Core, steps: seq<Step>, e: Event)
    requires Reachable(c) && e in c.orders.outbox && e.OrderCanceled? && e.version == 2
    ensures var c' := Exec(c, steps);
            e.eventId !in c'.payments.processed
              && (e.orderId in c'.payments.orders ==> c'.payments.orders[e.orderId].status == Created)
  {
    var c' := Exec(c, steps);
    ReachableExec(c, steps);
    PaymentSteps.ReachableInv(c);
    PaymentSteps.ReachableInv(c');
    Growth.ExecGrows(c, steps);
    assert e in c'.orders.outbox;
    assert TrueOrderEvent(c'.orders.orders, e);
    if e.orderId in c'.payments.orders {
      assert OrderSnapshot(c'.orders, c'.payments.orders[e.orderId], e.orderId);
    }
  }

  /** The projection that such a cancellation leaves stale admits no new payment: the order
      already has the one that moved it out of Created. */
  lemma StaleProjectionIsHarmless(c: Core, s: Step)
    requires Reachable(c) && s.CreatePayment? && Enabled(c, s)
    requires s.orderId in c.orders.orders && c.orders.orders[s.orderId].status == Canceled
             && c.orders.orders[s.orderId].version == 2
    ensures Next(c, s).payments == c.payments
  {
    hide Reachable, Orders.Handle;
    TwiceMovedHasPayment(c, s.orderId);
  }

  lemma TwiceMovedHasPayment(c: Core, o: Uuid)
    requires Reachable(c) && o in c.orders.orders && c.orders.orders[o].version == 2
    ensures Payments.PaymentsOf(c.payments, o) != {}
  {
    PaymentSteps.ReachableInv(c);
    var id :| id in c.payments.payments && c.payments.payments[id].orderId == o;
    assert id in Payments.PaymentsOf(c.payments, o);
  }

  /** A canceled order that Payments knows gets a first payment if and only if its cancellation
      has not reached Payments yet. */
  lemma CanceledOrderIsPayableIffUnaware(c: Core, o: Uuid, paymentId: Uuid, eventId: Uuid)
    requires Reachable(c) && o in c.orders.orders && c.orders.orders[o].status == Canceled
    requires o in c.payments.orders && Payments.PaymentsOf(c.payments, o) == {} && paymentId !in c.payments.payments
    ensures Payments.Create(c.payments, o, c.orders.orders[o].userId, None, paymentId, eventId).Committed?
            <==> forall e | e in c.orders.outbox && e.OrderCanceled? && e.orderId == o ::
              e.eventId !in c.payments.processed
  {
    hide Inv, Reachable;
    CanceledRowIffProcessed(c, o);
  }

  /** Payments shows an order as canceled exactly when it has processed its cancellation. */
  lemma CanceledRowIffProcessed(c: Core, o: Uuid)
    requires Reachable(c) && o in c.payments.orders
    ensures o in c.orders.orders && c.payments.orders[o].userId == c.orders.orders[o].userId
    ensures c.payments.orders[o].status == Canceled || c.payments.orders[o].status == Created
    ensures c.payments.orders[o].status == Canceled
            <==> (exists e ::
                    e in c.orders.outbox && e.OrderCanceled? && e.orderId == o && e.eventId in c.payments.processed)
  {
    PaymentSteps.ReachableInv(c);
    assert OrderSnapshot(c.orders, c.payments.orders[o], o);
    if c.payments.orders[o].status == Canceled {
      CanceledRowIsProcessed(c, o);
    }
  }

  lemma CanceledRowIsProcessed(c: Core, o: Uuid)
    requires Reachable(c) && o in c.payments.orders && c.payments.orders[o].status == Canceled
    ensures exists e :: e in c.orders.outbox && e.OrderCanceled? && e.orderId == o && e.eventId in c.payments.processed
  {
    hide Next, Inv;
    var now: int, steps: seq<Step> :| c == Exec(Initial(now), steps);
    CanceledRowHistory(now, steps, o);
  }

  lemma {:induction false} CanceledRowHistory(now: int, steps: seq<Step>, o: Uuid)
    requires var c := Exec(Initial(now), steps); o in c.payments.orders && c.payments.orders[o].status == Canceled
    ensures var c := Exec(Initial(now), steps);
            exists e :: e in c.orders.outbox && e.OrderCanceled? && e.orderId == o && e.eventId in c.payments.processed
  {
    hide Next, Growth.Grows;
    if steps != [] {
      var n := |steps| - 1;
      var before := Exec(Initial(now), steps[..n]);
      Growth.NextGrows(before, steps[n]);
      if o in before.payments.orders && before.payments.orders[o].status == Canceled {
        CanceledRowHistory(now, steps[..n], o);
        var e :| e in before.orders.outbox && e.OrderCanceled? && e.orderId == o
          && e.eventId in before.payments.processed;
        StillProcessed(before, Next(before, steps[n]), e);
      } else {
        RowBecomesCanceled(before, steps[n], o);
      }
    }
  }

  lemma StillProcessed(c: Core, c': Core, e: Event)
    requires Growth.Grows(c, c') && e in c.orders.outbox && e.eventId in c.payments.processed
    ensures e in c'.orders.outbox && e.eventId in c'.payments.processed
  {
  }

  lemma RowBecomesCanceled(c: Core, s: Step, o: Uuid)
    requires !(o in c.payments.orders && c.payments.orders[o].status == Canceled)
    requires o in Next(c, s).payments.orders && Next(c, s).payments.orders[o].status == Canceled
    ensures var c' := Next(c, s);
            exists e :: e in c'.orders.outbox && e.OrderCanceled? && e.orderId == o
                        && e.eventId in c'.payments.processed
  {
    hide Orders.Handle;
    assert s.Handle? && s.at == AtPayments && Enabled(c, s);
    assert s.event in Next(c, s).orders.outbox && s.event.eventId in Next(c, s).payments.processed;
  }
}
