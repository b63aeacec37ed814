/** The life of one order: its versions, its events, and how payment results, cancellations
    and expirations settle it. */
module Lifecycle {
  import opened Events
  import opened Saga
  import opened Invariants
  import Orders
  import PaymentSteps
  import Growth

  // ----- Events of an order -----

  /** The number of OrderCreated, or OrderCanceled, events about order `o`. */
  function Count(log: seq<Event>, o: Uuid, canceled: bool): nat {
    if log == [] then 0
    else
      var last := log[|log| - 1];
      Count(log[..|log| - 1], o, canceled)
      + if last.Order?() && last.orderId == o && last.OrderCanceled? == canceled then 1 else 0
  }

  lemma {:induction false} CountIsZero(log: seq<Event>, o: Uuid, canceled: bool)
    requires forall e | e in log :: !(e.Order?() && e.orderId == o && e.OrderCanceled? == canceled)
    ensures Count(log, o, canceled) == 0
  {
    if log != [] {
      CountIsZero(log[..|log| - 1], o, canceled);
    }
  }

  lemma {:induction false} CountIsOne(log: seq<Event>, e: Event)
    requires OncePerOrder(log) && e in log && e.Order?()
    ensures Count(log, e.orderId, e.OrderCanceled?) == 1
  {
    var front := log[..|log| - 1];
    var last := log[|log| - 1];
    if last == e {
      forall f | f in front
        ensures !(f.Order?() && f.orderId == e.orderId && f.OrderCanceled? == e.OrderCanceled?)
      {
        var i :| 0 <= i < |front| && front[i] == f;
        assert log[i] == f;
      }
      CountIsZero(front, e.orderId, e.OrderCanceled?);
    } else {
      assert log == front + [last];
      assert e in front;
      var i :| 0 <= i < |front| && front[i] == e;
      assert log[i] == e;
      CountIsOne(front, e);
    }
  }

  /** Created means version 0, AwaitingPayment 1, Canceled and Complete 1 or 2.  An order has one
      OrderCreated event, one OrderCanceled event exactly when it is Canceled, and every event
      in the log agrees with its row. */
  lemma {:induction false} OrderEventsAreConserved(c: Core, o: Uuid)
    requires Reachable(c) && o in c.orders.orders
    ensures LifecycleVersion(c.orders.orders[o])
    ensures Count(c.orders.outbox, o, false) == 1
    ensures Count(c.orders.outbox, o, true) == if c.orders.orders[o].status == Canceled then 1 else 0
    ensures forall e | e in c.orders.outbox :: TrueOrderEvent(c.orders.orders, e)
  {
    PaymentSteps.ReachableInv(c);
    assert OrderRow(c.orders, o);
    var created :| created in c.orders.outbox && created.OrderCreated? && created.orderId == o;
    CountIsOne(c.orders.outbox, created);
    if c.orders.orders[o].status == Canceled {
      var canceled :| canceled in c.orders.outbox && canceled.OrderCanceled? && canceled.orderId == o;
      CountIsOne(c.orders.outbox, canceled);
    } else {
      forall e | e in c.orders.outbox
        ensures !(e.Order?() && e.orderId == o && e.OrderCanceled?)
      {
        assert TrueOrderEvent(c.orders.orders, e);
      }
      CountIsZero(c.orders.outbox, o, true);
    }
  }

  /** Canceled and Complete are final: the row never changes again. */
  lemma {:induction false} TerminalIsFinal(c: Core, steps: seq<Step>, o: Uuid)
    requires o in c.orders.orders && !Orders.Active(c.orders.orders[o].status)
    ensures o in Exec(c, steps).orders.orders && Exec(c, steps).orders.orders[o] == c.orders.orders[o]
  {
    Growth.ExecGrows(c, steps);
    assert Growth.OrderGrows(c.orders.orders[o], Exec(c, steps).orders.orders[o]);
  }

  // ----- Settlement -----

  /** What can happen to one order after it was created. */
  datatype Act = PayCreated | PaySucceeded | PayFailed | Expire | UserCancel(userId: string)

  /** What a payment event or an expiration is to its order. */
  function ActOfEvent(e: Event): Act
    requires e.Payment?() || e.ExpirationComplete?
  {
    match e
    case PaymentCreated(_, _, _) => PayCreated
    case PaymentSucceeded(_, _, _) => PaySucceeded
    case PaymentFailed(_, _, _) => PayFailed
    case ExpirationComplete(_, _) => Expire
  }

  /** What a step is to order `o`. */
  function ActOf(s: Step, o: Uuid): Option<Act> {
    match s
    case CancelOrder(orderId, userId, _) => if orderId == o then Some(UserCancel(userId)) else None
    case Handle(at, e, _) =>
      if at == AtOrders && (e.Payment?() || e.ExpirationComplete?) && e.orderId == o then Some(ActOfEvent(e)) else None
    case _ => None
  }

  /** The status after an act: a payment created moves Created on; a result or the owner's
      cancellation ends an order that is Created or AwaitingPayment; an expiration ends one that
      is Created. */
  function Advance(status: OrderStatus, act: Act, owner: string): OrderStatus {
    match act
    case PayCreated => if status == Created then AwaitingPayment else status
    case PaySucceeded => if status == Created || status == AwaitingPayment then Complete else status
    case PayFailed => if status == Created || status == AwaitingPayment then Canceled else status
    case Expire => if status == Created then Canceled else status
    case UserCancel(userId) =>
      if userId == owner && (status == Created || status == AwaitingPayment) then Canceled else status
  }

  /** The tables of Orders with `o` advanced: unchanged, or its status moved with the version, and a
      cancellation announced. */
  ghost predicate Advanced(db: Orders.Db, db': Orders.Db, o: Uuid, status: OrderStatus, eventId: Uuid) {
    && o in db.orders && db'.tickets == db.tickets
    && var before := db.orders[o];
       if status == before.status then db'.orders == db.orders && db'.outbox == db.outbox
       else
         && db'.orders == db.orders[o :=
                                    Orders.Order(before.id, before.expiresAt, before.userId, before.ticketId, status,
                                                      before.version + 1)]
         && db'.outbox == db.outbox
                          + if status == Canceled then [OrderCanceled(eventId, o, before.version + 1, before.ticketId)]
                            else []
  }

  /** A redelivered event has spent its effect. */
  lemma SpentChangesNothing(c: Core, e: Event)
    requires Settlement(c.orders, c.payments) && Emitted(c, e) && (e.Payment?() || e.ExpirationComplete?)
    requires e.orderId in c.orders.orders && e.eventId in c.orders.processed
    ensures var o := c.orders.orders[e.orderId]; Advance(o.status, ActOfEvent(e), o.userId) == o.status
  {
  }

  lemma EventHasOrder(c: Core, e: Event)
    requires PaymentLog(c.payments) && OrderProjection(c.orders, c.payments)
    requires Emitted(c, e) && (e.Payment?() || e.ExpirationComplete?)
    ensures e.orderId in c.orders.orders
  {
    if e.Payment?() {
      assert TruePaymentEvent(c.payments.payments, e);
      assert PaymentRow(c.payments, e.paymentId);
      assert OrderSnapshot(c.orders, c.payments.orders[e.orderId], e.orderId);
    }
  }

  lemma HandleAdvances(db: Orders.Db, e: Event, newEventId: Uuid)
    requires (e.Payment?() || e.ExpirationComplete?) && e.orderId in db.orders && db.orders[e.orderId].id == e.orderId
    requires e.eventId in db.processed ==>
               Advance(db.orders[e.orderId].status, ActOfEvent(e), db.orders[e.orderId].userId) ==
                 db.orders[e.orderId].status
    ensures var tx := Orders.Handle(db, e, newEventId); var o := db.orders[e.orderId];
            && tx.Committed? && tx.db.processed == db.processed + {e.eventId}
            && Advanced(db, tx.db, e.orderId, Advance(o.status, ActOfEvent(e), o.userId), newEventId)
  {
  }

  /** Delivered to Orders in any reachable state, first or again, a payment event or an expiration
      is accepted and recorded, and advances its order as its kind says: in particular an
      expiration cancels a Created order, with one event, and leaves every other order alone. */
  lemma DeliveryAdvances(c: Core, e: Event, newEventId: Uuid)
    requires Reachable(c) && (e.Payment?() || e.ExpirationComplete?) && Enabled(c, Handle(AtOrders, e, newEventId))
    ensures e.orderId in c.orders.orders
    ensures var o := c.orders.orders[e.orderId]; var c' := Next(c, Handle(AtOrders, e, newEventId));
            && Orders.Handle(c.orders, e, newEventId).Committed?
            && c'.orders.processed == c.orders.processed + {e.eventId}
            && Advanced(c.orders, c'.orders, e.orderId, Advance(o.status, ActOfEvent(e), o.userId), newEventId)
            && c'.tickets == c.tickets && c'.payments == c.payments && c'.now == c.now
  {
    hide Reachable, Orders.Handle, TicketLog, OrderLog, PaymentLog, Identifiers, Markers, TicketProjection,
         OrderProjection,
         Settlement, Exclusive, Advanced, Advance, ActOfEvent;
    PaymentSteps.ReachableInv(c);
    EventHasOrder(c, e);
    RowIdentity(c, e.orderId);
    if e.eventId in c.orders.processed {
      SpentChangesNothing(c, e);
    }
    HandleAdvances(c.orders, e, newEventId);
  }

  /** An expiration cancels exactly the orders that are still Created. */
  lemma ExpirationCancelsOnlyCreated(c: Core, o: Uuid, newEventId: Uuid)
    requires Reachable(c) && o in c.orders.orders && Enabled(c, Handle(AtOrders, ExpirationComplete(o, o), newEventId))
    ensures var c' := Next(c, Handle(AtOrders, ExpirationComplete(o, o), newEventId)); var row := c.orders.orders[o];
            && o in c'.orders.processed
            && (row.status == Created ==>
                  && c'.orders.orders == c.orders.orders[o := row.(status := Canceled, version := 1)]
                  && c'.orders.outbox == c.orders.outbox + [OrderCanceled(newEventId, o, 1, row.ticketId)])
            && (row.status != Created ==> c'.orders.orders == c.orders.orders && c'.orders.outbox == c.orders.outbox)
  {
    hide Next, Enabled, Reachable;
    DeliveryAdvances(c, ExpirationComplete(o, o), newEventId);
    OrderEventsAreConserved(c, o);
  }

  lemma CancelAdvances(db: Orders.Db, o: Uuid, userId: string, eventId: Uuid)
    requires o in db.orders && db.orders[o].id == o
    ensures Advanced(db, Orders.CancelByIDAndUser(db, o, userId, eventId).After(db), o,
                     Advance(db.orders[o].status, UserCancel(userId), db.orders[o].userId), eventId)
  {
  }

  /** What any step does to order `o`: what its act says if it has one, and otherwise nothing. */
  lemma StepAdvances(c: Core, s: Step, o: Uuid)
    requires Reachable(c) && o in c.orders.orders
    ensures var row := c.orders.orders[o]; var c' := Next(c, s);
            && o in c'.orders.orders
            && (Enabled(c, s) && ActOf(s, o).Some? ==>
                  Advanced(c.orders, c'.orders, o, Advance(row.status, ActOf(s, o).value, row.userId), Generated(s)[0]))
            && (!(Enabled(c, s) && ActOf(s, o).Some?) ==> c'.orders.orders[o] == row)
  {
    hide Reachable, Orders.Handle, Advance, Advanced;
    if Enabled(c, s) && ActOf(s, o).Some? {
      RowOf(c, o);
      if s.Handle? {
        DeliveryAdvances(c, s.event, s.eventId);
      } else {
        CancelAdvances(c.orders, o, s.userId, s.eventId);
      }
      var row := c.orders.orders[o];
      AdvancedHasRow(c.orders, Next(c, s).orders, o, Advance(row.status, ActOf(s, o).value, row.userId),
                     Generated(s)[0]);
    } else {
      OthersStay(c, s, o);
    }
  }

  lemma AdvancedHasRow(db: Orders.Db, db': Orders.Db, o: Uuid, status: OrderStatus, eventId: Uuid)
    requires Advanced(db, db', o, status, eventId)
    ensures o in db'.orders && db'.orders[o].status == status && db'.orders[o].userId == db.orders[o].userId
  {
  }

  lemma RowOf(c: Core, o: Uuid)
    requires Reachable(c) && o in c.orders.orders
    ensures c.orders.orders[o].id == o
  {
    PaymentSteps.ReachableInv(c);
    RowIdentity(c, o);
  }

  /** A step that is no act on `o` leaves its row alone. */
  lemma OthersStay(c: Core, s: Step, o: Uuid)
    requires o in c.orders.orders && !(Enabled(c, s) && ActOf(s, o).Some?)
    ensures o in Next(c, s).orders.orders && Next(c, s).orders.orders[o] == c.orders.orders[o]
  {
  }

  lemma RowIdentity(c: Core, o: Uuid)
    requires OrderLog(c.orders) && o in c.orders.orders
    ensures c.orders.orders[o].id == o
  {
    assert OrderRow(c.orders, o);
  }

  // ----- Settlement over runs -----

  /** What happened to `o` in the run, duplicates included. */
  ghost function Acts(c: Core, steps: seq<Step>, o: Uuid): seq<Act> {
    if steps == [] then []
    else
      var front, last := steps[..|steps| - 1], steps[|steps| - 1];
      Acts(c, front, o) + if Enabled(Exec(c, front), last) && ActOf(last, o).Some? then [ActOf(last, o).value] else []
  }

  /** The status the order ends in, told from the acts alone: the first terminal act that is
      eligible when it arrives decides.  `awaiting` says whether a PaymentCreated has arrived;
      only an expiration asks. */
  function Verdict(acts: seq<Act>, owner: string, awaiting: bool): OrderStatus {
    if acts == [] then if awaiting then AwaitingPayment else Created
    else
      match acts[0]
      case PayCreated => Verdict(acts[1..], owner, true)
      case PaySucceeded => Complete
      case PayFailed => Canceled
      case Expire => if awaiting then Verdict(acts[1..], owner, awaiting) else Canceled
      case UserCancel(userId) => if userId == owner then Canceled else Verdict(acts[1..], owner, awaiting)
  }

  lemma {:induction false} VerdictSnoc(acts: seq<Act>, act: Act, owner: string, awaiting: bool)
    ensures Verdict(acts + [act], owner, awaiting) == Advance(Verdict(acts, owner, awaiting), act, owner)
  {
    var longer := acts + [act];
    if acts == [] {
      assert longer[0] == act && longer[1..] == [];
    } else {
      assert longer[0] == acts[0] && longer[1..] == acts[1..] + [act];
      VerdictSnoc(acts[1..], act, owner, awaiting);
      VerdictSnoc(acts[1..], act, owner, true);
    }
  }

  lemma {:induction false} RunAdvances(c: Core, steps: seq<Step>, o: Uuid)
    requires Reachable(c) && o in c.orders.orders && Orders.Active(c.orders.orders[o].status)
    ensures var c' := Exec(c, steps); var row := c.orders.orders[o];
            && o in c'.orders.orders && c'.orders.orders[o].userId == row.userId
            && c'.orders.orders[o].status == Verdict(Acts(c, steps, o), row.userId, row.status == AwaitingPayment)
  {
    hide Reachable, Next, Enabled, Verdict, Advance;
    var row := c.orders.orders[o];
    if steps == [] {
      NoVerdict(row.userId, row.status == AwaitingPayment);
    } else {
      var front, last := steps[..|steps| - 1], steps[|steps| - 1];
      RunAdvances(c, front, o);
      ReachableExec(c, front);
      var c1 := Exec(c, front);
      StepAdvances(c1, last, o);
      if Enabled(c1, last) && ActOf(last, o).Some? {
        VerdictSnoc(Acts(c, front, o), ActOf(last, o).value, row.userId, row.status == AwaitingPayment);
        AdvancedHasRow(c1.orders, Next(c1, last).orders, o,
                       Advance(c1.orders.orders[o].status, ActOf(last, o).value, row.userId), Generated(last)[0]);
      } else {
        assert Acts(c, steps, o) == Acts(c, front, o);
      }
    }
  }

  lemma {:induction false} NoVerdict(owner: string, awaiting: bool)
    ensures Verdict([], owner, awaiting) == if awaiting then AwaitingPayment else Created
  {
  }

  /** From every reachable state in which an order is Created or AwaitingPayment, every run, with
      whatever reordering, duplication and interleaving, ends it in the status that the first
      eligible terminal act chose, with one cancellation event for it exactly if it is Canceled.
      Its version counts the transitions and may differ. */
  lemma {:induction false} SettlementIsDecidedByFirstEligible(c: Core, steps: seq<Step>, o: Uuid)
    requires Reachable(c) && o in c.orders.orders && Orders.Active(c.orders.orders[o].status)
    ensures var c' := Exec(c, steps); var row := c.orders.orders[o];
            var v := Verdict(Acts(c, steps, o), row.userId, row.status == AwaitingPayment);
            && o in c'.orders.orders && c'.orders.orders[o].status == v
            && Count(c'.orders.outbox, o, true) == if v == Canceled then 1 else 0
  {
    hide Reachable, Next, Verdict, Acts, Count;
    RunAdvances(c, steps, o);
    ReachableExec(c, steps);
    OrderEventsAreConserved(Exec(c, steps), o);
  }

  predicate NoExpiration(acts: seq<Act>) {
    forall i | 0 <= i < |acts| :: !acts[i].Expire?
  }

  /** The status, with the two active ones told apart no more. */
  function Outcome(status: OrderStatus): OrderStatus {
    if status == AwaitingPayment then Created else status
  }

  function WithoutPayCreated(acts: seq<Act>): seq<Act> {
    if acts == [] then []
    else if acts[0].PayCreated? then WithoutPayCreated(acts[1..])
    else [acts[0]] + WithoutPayCreated(acts[1..])
  }

  /** Without expirations it does not matter when, how often, or whether PaymentCreated arrives. */
  lemma {:induction false} PaymentCreatedCommutes(acts: seq<Act>, owner: string, awaiting: bool)
    requires NoExpiration(acts)
    ensures Outcome(Verdict(acts, owner, awaiting)) == Outcome(Verdict(WithoutPayCreated(acts), owner, false))
  {
    if acts != [] {
      assert forall i | 0 <= i < |acts[1..]| :: acts[1..][i] == acts[i + 1];
      PaymentCreatedCommutes(acts[1..], owner, awaiting);
      PaymentCreatedCommutes(acts[1..], owner, true);
      if !acts[0].PayCreated? {
        assert WithoutPayCreated(acts)[1..] == WithoutPayCreated(acts[1..]);
      }
    }
  }

  /** The first result or cancellation by the owner. */
  function FirstEnd(acts: seq<Act>, owner: string): Option<Act> {
    if acts == [] then None
    else if acts[0].PaySucceeded? || acts[0].PayFailed? || acts[0] == UserCancel(owner) then Some(acts[0])
    else FirstEnd(acts[1..], owner)
  }

  lemma {:induction false} OutcomeIsFirstEnd(acts: seq<Act>, owner: string, awaiting: bool)
    requires NoExpiration(acts)
    ensures Outcome(Verdict(acts, owner, awaiting))
            == match FirstEnd(acts, owner) case None => Created case Some(end) => if end.PaySucceeded? then Complete
              else Canceled
  {
    if acts != [] {
      assert forall i | 0 <= i < |acts[1..]| :: acts[1..][i] == acts[i + 1];
      OutcomeIsFirstEnd(acts[1..], owner, awaiting);
      OutcomeIsFirstEnd(acts[1..], owner, true);
    }
  }

  /** Without expirations, any two runs from the same state in which the same result or
      cancellation comes first agree on the outcome of the order and on the number of cancellation
      events, whatever else they hold: wherever PaymentCreated falls, and with any duplicates. */
  lemma {:induction false} SettlementIsConfluent(c: Core, steps: seq<Step>, steps': seq<Step>, o: Uuid)
    requires Reachable(c) && o in c.orders.orders && Orders.Active(c.orders.orders[o].status)
    requires NoExpiration(Acts(c, steps, o)) && NoExpiration(Acts(c, steps', o))
    requires FirstEnd(Acts(c, steps, o), c.orders.orders[o].userId) ==
             FirstEnd(Acts(c, steps', o), c.orders.orders[o].userId)
    ensures var c1, c2 := Exec(c, steps), Exec(c, steps');
            && o in c1.orders.orders && o in c2.orders.orders
            && Outcome(c1.orders.orders[o].status) == Outcome(c2.orders.orders[o].status)
            && Count(c1.orders.outbox, o, true) == Count(c2.orders.outbox, o, true)
  {
    hide Reachable, Next, Verdict, Acts, Count, FirstEnd, NoExpiration;
    var row := c.orders.orders[o];
    SettlementIsDecidedByFirstEligible(c, steps, o);
    SettlementIsDecidedByFirstEligible(c, steps', o);
    OutcomeIsFirstEnd(Acts(c, steps, o), row.userId, row.status == AwaitingPayment);
    OutcomeIsFirstEnd(Acts(c, steps', o), row.userId, row.status == AwaitingPayment);
  }
}
