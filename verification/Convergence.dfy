/** Where redelivery leads: Tickets' markers and Payments' orders, delivered again and again, end
    up telling what Orders says.  (For Orders' tickets see module Projections.) */
module Convergence {
  import opened Events
  import opened Saga
  import opened Invariants
  import Tickets
  import Orders
  import Payments
  import TicketSteps
  import PaymentSteps
  import Reservations
  import Prices

  /** Every step of the run is one that can be taken when its turn comes. */
  ghost predicate PossibleRun(c: Core, steps: seq<Step>) {
    forall i | 0 <= i < |steps| :: Enabled(Exec(c, steps[..i]), steps[i])
  }

  predicate DeliversTo(steps: seq<Step>, at: Service) {
    forall i | 0 <= i < |steps| :: steps[i].Handle? && steps[i].at == at
  }

  predicate Delivers(steps: seq<Step>, e: Event) {
    exists i :: 0 <= i < |steps| && steps[i].Handle? && steps[i].event == e
  }

  lemma {:induction false} RunSnoc(c: Core, steps: seq<Step>)
    requires PossibleRun(c, steps) && steps != []
    ensures var front, last := steps[..|steps| - 1], steps[|steps| - 1];
            && PossibleRun(c, front) && Enabled(Exec(c, front), last) && Exec(c, steps) == Next(Exec(c, front), last)
  {
    hide Next, Enabled;
    var front := steps[..|steps| - 1];
    assert forall i | 0 <= i < |front| :: front[..i] == steps[..i];
  }

  // ----- The marker in Tickets -----

  predicate About(e: Event, t: Uuid) {
    e.Order?() && e.ticketId == t
  }

  /** The positions of the order events about ticket `t` that Tickets has not processed. */
  function Unprocessed(c: Core, t: Uuid): set<int> {
    set i | 0 <= i < |c.orders.outbox| && About(c.orders.outbox[i], t)
      && c.orders.outbox[i].eventId !in c.tickets.processed
  }

  /** Delivered now, `w` would be processed. */
  ghost predicate Ready(c: Core, w: Event, t: Uuid) {
    && w in c.orders.outbox && About(w, t) && w.eventId !in c.tickets.processed && t in c.tickets.tickets
    && c.tickets.tickets[t].reservedBy == if w.OrderCreated? then None else Some(w.orderId)
  }

  ghost predicate HeldForGood(c: Core, t: Uuid) {
    && t in c.tickets.tickets && c.tickets.tickets[t].reservedBy.Some?
    && var o := c.tickets.tickets[t].reservedBy.value;
       o in c.orders.orders && c.orders.orders[o].status != Canceled
  }

  /** Redelivery has nothing more to do. */
  ghost predicate Settled(c: Core, t: Uuid) {
    HeldForGood(c, t) || Unprocessed(c, t) == {}
  }

  lemma OrderFacts(c: Core, o: Uuid) returns (e: Event)
    requires OrderLog(c.orders) && o in c.orders.orders
    ensures e in c.orders.outbox && e.OrderCreated? && e.orderId == o && e.ticketId == c.orders.orders[o].ticketId
    ensures c.orders.orders[o].status == Canceled <==> HasCanceled(c.orders.outbox, o)
  {
    assert OrderRow(c.orders, o);
    e :| e in c.orders.outbox && e.OrderCreated? && e.orderId == o;
    assert forall f | f in c.orders.outbox :: TrueOrderEvent(c.orders.orders, f);
  }

  lemma UnprocessedHas(c: Core, t: Uuid, e: Event)
    requires e in c.orders.outbox && About(e, t) && e.eventId !in c.tickets.processed
    ensures Unprocessed(c, t) != {}
  {
    var i :| 0 <= i < |c.orders.outbox| && c.orders.outbox[i] == e;
    assert i in Unprocessed(c, t);
  }

  lemma MarkerFacts(c: Core, t: Uuid, o: Uuid)
    requires Markers(c.tickets, c.orders) && t in c.tickets.tickets
    ensures c.tickets.tickets[t].reservedBy == Some(o)
            <==> o in c.orders.orders && c.orders.orders[o].ticketId == t && Holds(c.tickets, c.orders, o)
  {
  }

  lemma CancellationOf(c: Core, o: Uuid) returns (e: Event)
    requires OrderLog(c.orders) && o in c.orders.orders && c.orders.orders[o].status == Canceled
    ensures e in c.orders.outbox && e.OrderCanceled? && e.orderId == o && e.ticketId == c.orders.orders[o].ticketId
  {
    assert OrderRow(c.orders, o);
    e :| e in c.orders.outbox && e.OrderCanceled? && e.orderId == o;
    assert TrueOrderEvent(c.orders.orders, e);
  }

  /** A marked ticket is held for good, or the cancellation of its order is ready. */
  lemma MarkedIsSettledOrReady(c: Core, t: Uuid, o: Uuid) returns (w: Event)
    requires OrderLog(c.orders) && Markers(c.tickets, c.orders)
    requires t in c.tickets.tickets && c.tickets.tickets[t].reservedBy == Some(o)
    ensures HeldForGood(c, t) || Ready(c, w, t)
  {
    hide OrderLog, Markers, CreatedProcessed;
    MarkerFacts(c, t, o);
    if c.orders.orders[o].status == Canceled {
      w := CancellationOf(c, o);
    } else {
      w := OrderFacts(c, o);
    }
  }

  lemma CanceledIsNotHeld(c: Core, w: Event)
    requires OrderLog(c.orders) && w in c.orders.outbox && w.OrderCanceled? && w.eventId !in c.tickets.processed
    ensures !CanceledProcessed(c.tickets.processed, c.orders.outbox, w.orderId)
    ensures w.orderId in c.orders.orders && c.orders.orders[w.orderId].ticketId == w.ticketId
  {
    assert TrueOrderEvent(c.orders.orders, w);
    if CanceledProcessed(c.tickets.processed, c.orders.outbox, w.orderId) {
      var f :| f in c.orders.outbox && f.OrderCanceled? && f.orderId == w.orderId && f.eventId in c.tickets.processed;
      TicketSteps.OneEventPerOrder(c.orders.outbox, w, f);
    }
  }

  /** On an unmarked ticket some creation is ready, as long as anything is unprocessed. */
  lemma UnmarkedIsReady(c: Core, t: Uuid) returns (w: Event)
    requires OrderLog(c.orders) && Markers(c.tickets, c.orders)
    requires t in c.tickets.tickets && c.tickets.tickets[t].reservedBy == None && Unprocessed(c, t) != {}
    ensures Ready(c, w, t)
  {
    hide OrderLog, Markers;
    var i :| i in Unprocessed(c, t);
    w := c.orders.outbox[i];
    if w.OrderCanceled? {
      CanceledIsNotHeld(c, w);
      MarkerFacts(c, t, w.orderId);
      w := OrderFacts(c, w.orderId);
    }
  }

  lemma SettledOrReady(c: Core, t: Uuid) returns (w: Event)
    requires Inv(c) && t in c.tickets.tickets
    ensures Settled(c, t) || Ready(c, w, t)
  {
    hide Ready, Unprocessed, HeldForGood, TicketLog, OrderLog, PaymentLog, Identifiers, Markers, TicketProjection,
         OrderProjection, Settlement, Exclusive;
    if c.tickets.tickets[t].reservedBy.Some? {
      w := MarkedIsSettledOrReady(c, t, c.tickets.tickets[t].reservedBy.value);
    } else if Unprocessed(c, t) != {} {
      w := UnmarkedIsReady(c, t);
    } else {
      w := ExpirationComplete(0, 0);
    }
  }

  /** A delivery to Tickets leaves Orders alone and processes at most its event. */
  lemma DeliveryFacts(c: Core, s: Step, t: Uuid)
    requires s.Handle? && s.at == AtTickets && Enabled(c, s)
    ensures var c' := Next(c, s);
            && c'.orders == c.orders && Unprocessed(c', t) <= Unprocessed(c, t)
            && (t in c.tickets.tickets ==> t in c'.tickets.tickets)
            && (t in c.tickets.tickets && Unprocessed(c', t) == Unprocessed(c, t) ==>
                  c'.tickets.tickets[t].reservedBy == c.tickets.tickets[t].reservedBy)
  {
    var c' := Next(c, s);
    if s.event.Order?() && s.event.ticketId == t && s.event.eventId !in c.tickets.processed
       && Tickets.Handle(c.tickets, s.event, s.eventId).Committed? {
      var i :| 0 <= i < |c.orders.outbox| && c.orders.outbox[i] == s.event;
      assert i in Unprocessed(c, t) && i !in Unprocessed(c', t);
    }
  }

  lemma OrderEventIsValid(c: Core, e: Event)
    requires OrderLog(c.orders) && e in c.orders.outbox
    ensures ValidOrderEvent(e)
  {
    assert TrueOrderEvent(c.orders.orders, e);
  }

  lemma ReadyIsProcessed(c: Core, s: Step, t: Uuid)
    requires OrderLog(c.orders) && s.Handle? && s.at == AtTickets && Enabled(c, s) && Ready(c, s.event, t)
    ensures Unprocessed(Next(c, s), t) < Unprocessed(c, t)
  {
    hide OrderLog;
    DeliveryFacts(c, s, t);
    OrderEventIsValid(c, s.event);
    var i :| 0 <= i < |c.orders.outbox| && c.orders.outbox[i] == s.event;
    assert i in Unprocessed(c, t) && i !in Unprocessed(Next(c, s), t);
  }

  lemma ReadyStays(c: Core, c': Core, w: Event, t: Uuid)
    requires Ready(c, w, t) && c'.orders == c.orders && t in c'.tickets.tickets
             && Unprocessed(c', t) == Unprocessed(c, t)
    requires c'.tickets.tickets[t].reservedBy == c.tickets.tickets[t].reservedBy
    ensures Ready(c', w, t)
  {
    var i :| 0 <= i < |c.orders.outbox| && c.orders.outbox[i] == w;
    assert i in Unprocessed(c, t);
  }

  /** Deliveries process something about the ticket, or `w` stays ready and was not among them. */
  lemma {:induction false} DeliverSome(c: Core, pass: seq<Step>, t: Uuid, w: Event)
    requires Inv(c) && Ready(c, w, t) && PossibleRun(c, pass) && DeliversTo(pass, AtTickets)
    ensures var c' := Exec(c, pass);
            && c'.orders == c.orders && t in c'.tickets.tickets
            && (Unprocessed(c', t) < Unprocessed(c, t)
                || (Unprocessed(c', t) == Unprocessed(c, t) && Ready(c', w, t) && !Delivers(pass, w)))
  {
    hide Next, Enabled, Unprocessed, Ready, TicketLog, OrderLog, PaymentLog, Identifiers, Markers, TicketProjection,
         OrderProjection, Settlement, Exclusive;
    if pass == [] {
      ReadyHasTicket(c, w, t);
    } else {
      var front, last := pass[..|pass| - 1], pass[|pass| - 1];
      RunSnoc(c, pass);
      DeliverSome(c, front, t, w);
      var c1 := Exec(c, front);
      PaymentSteps.ExecInv(c, front);
      DeliveryFacts(c1, last, t);
      if Unprocessed(c1, t) == Unprocessed(c, t) {
        if last.event == w {
          ReadyIsProcessed(c1, last, t);
        } else if Unprocessed(Next(c1, last), t) == Unprocessed(c1, t) {
          ReadyStays(c1, Next(c1, last), w, t);
        }
      }
    }
  }

  lemma ReadyHasTicket(c: Core, w: Event, t: Uuid)
    requires Ready(c, w, t)
    ensures t in c.tickets.tickets && w in c.orders.outbox && About(w, t)
  {
  }

  /** Deliveries to Tickets, in any order and with any repetitions, of all order events of `t`. */
  ghost predicate TicketsPass(c: Core, pass: seq<Step>, t: Uuid) {
    && PossibleRun(c, pass) && DeliversTo(pass, AtTickets)
    && forall e | e in c.orders.outbox && About(e, t) :: Delivers(pass, e)
  }

  /** Unless it is settled, a pass processes at least one more event about the ticket. */
  lemma {:induction false} PassAdvances(c: Core, pass: seq<Step>, t: Uuid)
    requires Inv(c) && t in c.tickets.tickets && TicketsPass(c, pass, t) && !Settled(c, t)
    ensures Unprocessed(Exec(c, pass), t) < Unprocessed(c, t)
    ensures Exec(c, pass).orders == c.orders && t in Exec(c, pass).tickets.tickets
  {
    hide Inv, Next, Exec, Unprocessed, Ready, PossibleRun;
    var w := SettledOrReady(c, t);
    ReadyHasTicket(c, w, t);
    DeliverSome(c, pass, t, w);
  }

  lemma SettledStays(c: Core, s: Step, t: Uuid)
    requires Inv(c) && Settled(c, t) && s.Handle? && s.at == AtTickets && Enabled(c, s)
    ensures Settled(Next(c, s), t)
  {
    hide Next, Unprocessed, Enabled, TicketLog, OrderLog, PaymentLog, Identifiers, Markers, TicketProjection,
         OrderProjection, Settlement, Exclusive;
    DeliveryFacts(c, s, t);
    if HeldForGood(c, t) {
      var o := c.tickets.tickets[t].reservedBy.value;
      if !Reservations.Marked(Next(c, s), t, o) {
        Reservations.ReleaseProcessesCancellation(c, s, t, o);
        var e := OrderFacts(c, o);
      }
    }
  }

  lemma {:induction false} PassKeepsSettled(c: Core, pass: seq<Step>, t: Uuid)
    requires Inv(c) && t in c.tickets.tickets && Settled(c, t) && PossibleRun(c, pass) && DeliversTo(pass, AtTickets)
    ensures Settled(Exec(c, pass), t) && Exec(c, pass).orders == c.orders && t in Exec(c, pass).tickets.tickets
  {
    hide Inv, Next, Settled, Enabled, Unprocessed;
    if pass != [] {
      var front, last := pass[..|pass| - 1], pass[|pass| - 1];
      RunSnoc(c, pass);
      PassKeepsSettled(c, front, t);
      PaymentSteps.ExecInv(c, front);
      DeliveryFacts(Exec(c, front), last, t);
      SettledStays(Exec(c, front), last, t);
    }
  }

  ghost function ExecPasses(c: Core, passes: seq<seq<Step>>): Core
    decreases |passes|
  {
    if passes == [] then c else ExecPasses(Exec(c, passes[0]), passes[1..])
  }

  ghost predicate TicketsPasses(c: Core, passes: seq<seq<Step>>, t: Uuid)
    decreases |passes|
  {
    passes == [] || (TicketsPass(c, passes[0], t) && TicketsPasses(Exec(c, passes[0]), passes[1..], t))
  }

  lemma {:induction false} PassesSettle(c: Core, passes: seq<seq<Step>>, t: Uuid)
    requires Inv(c) && t in c.tickets.tickets && TicketsPasses(c, passes, t)
    requires Settled(c, t) || |passes| >= |Unprocessed(c, t)|
    ensures var c' := ExecPasses(c, passes);
            Inv(c') && Settled(c', t) && c'.orders == c.orders && t in c'.tickets.tickets
    decreases |passes|
  {
    hide Inv, Exec, Unprocessed, PossibleRun, HeldForGood;
    if passes != [] {
      var c1 := Exec(c, passes[0]);
      PaymentSteps.ExecInv(c, passes[0]);
      if Settled(c, t) {
        PassKeepsSettled(c, passes[0], t);
      } else {
        PassAdvances(c, passes[0], t);
        FewerThan(Unprocessed(c1, t), Unprocessed(c, t));
      }
      PassesSettle(c1, passes[1..], t);
    } else {
      assert |Unprocessed(c, t)| == 0 ==> Unprocessed(c, t) == {};
    }
  }

  lemma FewerThan(a: set<int>, b: set<int>)
    requires a < b
    ensures |a| < |b|
  {
    assert b == a + (b - a);
    assert b - a == {} ==> b == a;
  }

  /** Settled, the marker says what Orders says. */
  lemma SettledIsTrue(c: Core, t: Uuid)
    requires Inv(c) && t in c.tickets.tickets && Settled(c, t)
    ensures MarkerIsTrue(c, t)
  {
    hide Unprocessed, Ready, TicketLog, OrderLog, PaymentLog, Identifiers, Markers, TicketProjection, OrderProjection,
         Settlement, Exclusive;
    var marker := c.tickets.tickets[t].reservedBy;
    if marker.Some? {
      MarkerFacts(c, t, marker.value);
      var w := MarkedIsSettledOrReady(c, t, marker.value);
      if Ready(c, w, t) {
        ReadyIsUnprocessed(c, w, t);
      }
    } else {
      forall o | o in c.orders.orders && c.orders.orders[o].ticketId == t
        ensures c.orders.orders[o].status == Canceled
      {
        NothingUnprocessed(c, t, o);
      }
    }
  }

  lemma ReadyIsUnprocessed(c: Core, w: Event, t: Uuid)
    requires Ready(c, w, t)
    ensures Unprocessed(c, t) != {}
  {
    UnprocessedHas(c, t, w);
  }

  /** With everything processed, an order that is not on its ticket is canceled. */
  lemma NothingUnprocessed(c: Core, t: Uuid, o: Uuid)
    requires OrderLog(c.orders) && Markers(c.tickets, c.orders) && t in c.tickets.tickets && Unprocessed(c, t) == {}
    requires o in c.orders.orders && c.orders.orders[o].ticketId == t && c.tickets.tickets[t].reservedBy != Some(o)
    ensures c.orders.orders[o].status == Canceled
  {
    hide OrderLog, Markers, Unprocessed;
    MarkerFacts(c, t, o);
    var e := OrderFacts(c, o);
    if e.eventId !in c.tickets.processed {
      UnprocessedHas(c, t, e);
    }
  }

  predicate Uncanceled(orders: map<Uuid, Orders.Order>, o: Uuid, t: Uuid) {
    o in orders && orders[o].ticketId == t && orders[o].status != Canceled
  }

  /** The ticket is marked with an order of its own that is not canceled, if it has one at all. */
  predicate MarkerIsTrue(c: Core, t: Uuid)
    requires t in c.tickets.tickets
  {
    match c.tickets.tickets[t].reservedBy
    case Some(o) => Uncanceled(c.orders.orders, o, t)
    case None => forall o | o in c.orders.orders :: !Uncanceled(c.orders.orders, o, t)
  }

  /** From any reachable state, as many passes over the order events of a ticket as there are
      unprocessed ones, each in any order and with any repetitions, leave the ticket marked with
      an order that is not canceled, or unmarked if all its orders are canceled. */
  lemma {:induction false} MarkerConverges(c: Core, passes: seq<seq<Step>>, t: Uuid)
    requires Reachable(c) && t in c.tickets.tickets && TicketsPasses(c, passes, t) && |passes| >= |Unprocessed(c, t)|
    ensures var c' := ExecPasses(c, passes);
            c'.orders == c.orders && t in c'.tickets.tickets && MarkerIsTrue(c', t)
  {
    hide Inv, Reachable, ExecPasses, TicketsPasses, Unprocessed, Settled;
    PaymentSteps.ReachableInv(c);
    PassesSettle(c, passes, t);
    SettledIsTrue(ExecPasses(c, passes), t);
  }

  /** If at most one order of the ticket is not canceled, the marker ends on exactly that one. */
  lemma {:induction false} MarkerConvergesToTheOrder(c: Core, passes: seq<seq<Step>>, t: Uuid, o: Uuid)
    requires Reachable(c) && t in c.tickets.tickets && TicketsPasses(c, passes, t) && |passes| >= |Unprocessed(c, t)|
    requires forall a, b | Uncanceled(c.orders.orders, a, t) && Uncanceled(c.orders.orders, b, t) :: a == b
    ensures t in ExecPasses(c, passes).tickets.tickets
    ensures ExecPasses(c, passes).tickets.tickets[t].reservedBy == Some(o)
            <==> Uncanceled(c.orders.orders, o, t)
  {
    hide Reachable, ExecPasses, TicketsPasses, Unprocessed;
    MarkerConverges(c, passes, t);
  }

  // ----- The orders in Payments -----

  /** What a delivery of an order event does to Payments whenever it comes. */
  lemma PaymentsDelivery(c: Core, s: Step)
    requires OrderLog(c.orders) && OrderProjection(c.orders, c.payments)
    requires s.Handle? && s.at == AtPayments && Enabled(c, s) && s.event in c.orders.outbox
    ensures var c' := Next(c, s); var e := s.event;
            && (e.OrderCreated? ==> e.orderId in c'.payments.orders)
            && (e.OrderCanceled? && e.version == 1 && e.orderId in c.payments.orders ==>
                e.eventId in c'.payments.processed)
  {
    assert TrueOrderEvent(c.orders.orders, s.event);
    assert s.event.orderId in c.payments.orders ==>
           OrderSnapshot(c.orders, c.payments.orders[s.event.orderId], s.event.orderId);
  }

  lemma PaymentsFrame(c: Core, s: Step)
    requires s.Handle? && s.at == AtPayments
    ensures Next(c, s).orders == c.orders && c.payments.orders.Keys <= Next(c, s).payments.orders.Keys
    ensures c.payments.processed <= Next(c, s).payments.processed
  {
  }

  /** Deliveries to Payments, in any order and with any repetitions, of all order events. */
  ghost predicate PaymentsPass(c: Core, pass: seq<Step>) {
    && PossibleRun(c, pass) && DeliversTo(pass, AtPayments)
    && forall e | e in c.orders.outbox && e.Order?() :: Delivers(pass, e)
  }

  /** By the end of the deliveries, a creation among them is projected, and so is a cancellation
      of version 1 if its order was known at the start. */
  lemma {:induction false} PaymentsDeliveries(c: Core, pass: seq<Step>, e: Event)
    requires Inv(c) && PossibleRun(c, pass) && DeliversTo(pass, AtPayments) && e in c.orders.outbox
    ensures var c' := Exec(c, pass);
            && c'.orders == c.orders && c.payments.orders.Keys <= c'.payments.orders.Keys
            && c.payments.processed <= c'.payments.processed
            && (e.OrderCreated? && Delivers(pass, e) ==> e.orderId in c'.payments.orders)
            && (e.OrderCanceled? && e.version == 1 && e.orderId in c.payments.orders && Delivers(pass, e) ==>
                  e.eventId in c'.payments.processed)
  {
    hide Next, Enabled, TicketLog, OrderLog, PaymentLog, Identifiers, Markers, TicketProjection, OrderProjection,
         Settlement, Exclusive;
    if pass != [] {
      var front, last := pass[..|pass| - 1], pass[|pass| - 1];
      RunSnoc(c, pass);
      PaymentsDeliveries(c, front, e);
      PaymentSteps.ExecInv(c, front);
      PaymentsFrame(Exec(c, front), last);
      if last.event == e {
        PaymentsDelivery(Exec(c, front), last);
      }
    }
  }

  /** What Payments should show of an order. */
  predicate TruthOf(o: Orders.Order, row: Payments.OrderRow) {
    && row.userId == o.userId
    && (row.version, row.status) == if o.status == Canceled && o.version == 1 then (1, Canceled) else (0, Created)
  }

  lemma ProcessedIsTrue(c: Core, o: Uuid)
    requires OrderLog(c.orders) && OrderProjection(c.orders, c.payments) && o in c.orders.orders
             && o in c.payments.orders
    requires forall e | e in c.orders.outbox && e.OrderCanceled? && e.orderId == o && e.version == 1 ::
             e.eventId in c.payments.processed
    ensures TruthOf(c.orders.orders[o], c.payments.orders[o])
  {
    assert OrderSnapshot(c.orders, c.payments.orders[o], o);
    if c.orders.orders[o].status == Canceled {
      var e := CancellationOf(c, o);
      assert TrueOrderEvent(c.orders.orders, e);
    }
  }

  lemma ProjectedIsKnown(c: Core, o: Uuid)
    requires OrderProjection(c.orders, c.payments) && o in c.payments.orders
    ensures o in c.orders.orders
  {
    assert OrderSnapshot(c.orders, c.payments.orders[o], o);
  }

  /** From any reachable state two passes over the order events, each in any order and with any
      repetitions, make Payments show every order and no other, at the price and for the user of
      its creation, and Canceled exactly if Orders canceled it straight from Created. */
  lemma {:induction false} PaymentsConverge(c: Core, first: seq<Step>, second: seq<Step>)
    requires Reachable(c) && PaymentsPass(c, first) && PaymentsPass(Exec(c, first), second)
    ensures var c' := Exec(Exec(c, first), second);
            && c'.orders == c.orders && c'.payments.orders.Keys == c.orders.orders.Keys
            && forall o | o in c.orders.orders ::
                 TruthOf(c.orders.orders[o], c'.payments.orders[o])
                   && Prices.Charged(c.orders.outbox, o, c'.payments.orders[o])
  {
    hide Next, Enabled, PossibleRun, Reachable, TicketLog, OrderLog, PaymentLog, Identifiers, Markers, TicketProjection,
         OrderProjection, Settlement, Exclusive, TruthOf, Prices.Charged;
    var c1 := Exec(c, first);
    var c2 := Exec(c1, second);
    PaymentSteps.ReachableInv(c);
    PaymentSteps.ExecInv(c, first);
    PaymentSteps.ExecInv(c1, second);
    NothingMoves(c, first);
    NothingMoves(c1, second);
    forall o | o in c.orders.orders
      ensures o in c2.payments.orders && TruthOf(c.orders.orders[o], c2.payments.orders[o])
    {
      var created := OrderFacts(c, o);
      PaymentsDeliveries(c, first, created);
      PaymentsDeliveries(c1, second, created);
      forall e | e in c.orders.outbox && e.OrderCanceled? && e.orderId == o && e.version == 1
        ensures e.eventId in c2.payments.processed
      {
        PaymentsDeliveries(c1, second, e);
      }
      ProcessedIsTrue(c2, o);
    }
    forall o | o in c2.payments.orders
      ensures o in c.orders.orders && Prices.Charged(c.orders.outbox, o, c2.payments.orders[o])
    {
      ProjectedIsKnown(c2, o);
      ReachableExec(c, first);
      ReachableExec(c1, second);
      Prices.RowIsCharged(c2, o);
    }
  }

  lemma {:induction false} NothingMoves(c: Core, pass: seq<Step>)
    requires DeliversTo(pass, AtPayments)
    ensures Exec(c, pass).orders == c.orders
  {
    hide Next;
    if pass != [] {
      NothingMoves(c, pass[..|pass| - 1]);
      PaymentsFrame(Exec(c, pass[..|pass| - 1]), pass[|pass| - 1]);
    }
  }
}
