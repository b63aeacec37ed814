/** Runs that show where the guarantees end, and that their hypotheses can be met.  They start
    from any reachable state in which a ticket is free, and one such state is built. */
module Counterexamples {
  import opened Events
  import opened Saga
  import opened Invariants
  import Tickets
  import Orders
  import Payments
  import PaymentSteps
  import Convergence
  import Growth
  import Lifecycle
  import Realization
  import World
  import Money

  /** No identifier from `b` on is in use. */
  ghost predicate Below(c: Core, b: Uuid) {
    && (forall id | id in c.issued :: id < b)
    && (forall id | id in c.payments.payments :: id < b)
    && (forall id | id in c.tickets.tickets :: id < b)
  }

  /** Orders knows ticket `t` and findBlockingOrder finds nothing for it. */
  ghost predicate Free(c: Core, t: Uuid) {
    t in c.orders.tickets && forall x | x in c.orders.orders :: !Orders.Blocks(c.orders.orders[x], t, c.now)
  }

  lemma {:induction false} SomeBound(ids: set<Uuid>) returns (b: Uuid)
    ensures forall id | id in ids :: id < b
    decreases ids
  {
    b := 0;
    if ids != {} {
      var id :| id in ids;
      var rest := SomeBound(ids - {id});
      b := if rest > id then rest else id + 1;
      assert forall x | x in ids :: x == id || x in ids - {id};
    }
  }

  lemma SomeUnused(c: Core) returns (b: Uuid)
    ensures Below(c, b)
  {
    b := SomeBound(c.issued + c.payments.payments.Keys + c.tickets.tickets.Keys);
  }

  /** Nothing in the steps is an expiration. */
  predicate NoExpirations(steps: seq<Step>) {
    forall i | 0 <= i < |steps| :: !(steps[i].Handle? && steps[i].event.ExpirationComplete?)
  }

  // ----- Resolving what is pending -----

  function PendingOf(c: Core): set<Uuid> {
    set id | id in c.payments.payments && c.payments.payments[id].status == Payments.Pending
  }

  lemma ResolveLeast(c: Core, id: Uuid, b: Uuid)
    requires Below(c, b) && id in PendingOf(c) && forall x | x in PendingOf(c) :: id <= x
    ensures var c' := Next(c, ResolvePayment(Payments.OutcomeSuccess, {}, Some(id), b));
            && c'.orders == c.orders && c'.now == c.now && Below(c', b + 1) && PendingOf(c') == PendingOf(c) - {id}
  {
    assert forall x :: Payments.Claimable(c.payments, {}, x) ==> x in PendingOf(c);
    assert Enabled(c, ResolvePayment(Payments.OutcomeSuccess, {}, Some(id), b));
  }

  /** The processor, left alone, resolves everything that is pending. */
  lemma {:induction false} Drained(c: Core, b: Uuid) returns (steps: seq<Step>, b': Uuid)
    requires Below(c, b)
    ensures var c' := Exec(c, steps);
            && c'.orders == c.orders && c'.now == c.now && Below(c', b') && PendingOf(c') == {}
    ensures NoExpirations(steps)
    decreases |PendingOf(c)|
  {
    hide Next, Below;
    steps, b' := [], b;
    if PendingOf(c) != {} {
      Payments.SomeIdIsLeast(PendingOf(c));
      var id :| id in PendingOf(c) && forall x | x in PendingOf(c) :: id <= x;
      var s := ResolvePayment(Payments.OutcomeSuccess, {}, Some(id), b);
      ResolveLeast(c, id, b);
      var rest;
      rest, b' := Drained(Next(c, s), b + 1);
      ExecOne(c, s);
      ExecConcat(c, [s], rest);
      steps := [s] + rest;
    }
  }

  /** From a reachable state with a free ticket to one with nothing pending, and unused ids. */
  lemma Readied(c: Core, t: Uuid) returns (steps: seq<Step>, b: Uuid)
    requires Reachable(c) && Free(c, t)
    ensures var c' := Exec(c, steps); Inv(c') && Free(c', t) && PendingOf(c') == {} && Below(c', b)
    ensures NoExpirations(steps)
  {
    hide Next, Inv, Below, Reachable;
    var unused := SomeUnused(c);
    steps, b := Drained(c, unused);
    PaymentSteps.ReachableInv(c);
    PaymentSteps.ExecInv(c, steps);
  }

  // ----- A purchase -----

  function Made(b: Uuid, expiresAt: int, user: string, t: Uuid): Orders.Order {
    Orders.Order(b, expiresAt, user, t, Created, 0)
  }

  function SuccessOf(b: Uuid): Event {
    PaymentSucceeded(b + 5, b + 3, b)
  }

  function ReserveStep(c: Core, t: Uuid, user: string, expiresAt: int, b: Uuid): Step {
    ReserveTicket(c.now, expiresAt, t, user, None, b, b + 1)
  }

  function AnnounceStep(c: Core, t: Uuid, user: string, expiresAt: int, b: Uuid): Step
    requires t in c.orders.tickets
  {
    Handle(AtPayments, Orders.CreatedEvent(b + 1, Made(b, expiresAt, user, t), c.orders.tickets[t].price), b + 2)
  }

  function ResolveStep(b: Uuid): Step {
    ResolvePayment(Payments.OutcomeSuccess, {}, Some(b + 3), b + 5)
  }

  /** `user` reserves ticket `t` and pays.  Orders has not heard of the payment yet. */
  function Purchase(c: Core, t: Uuid, user: string, expiresAt: int, b: Uuid): seq<Step>
    requires t in c.orders.tickets
  {
    [ReserveStep(c, t, user, expiresAt, b)] + [AnnounceStep(c, t, user, expiresAt, b)]
    + [CreatePayment(b, user, None, b + 3, b + 4)] + [ResolveStep(b)]
  }

  lemma {:induction false} ExecSnoc(c: Core, steps: seq<Step>, s: Step)
    ensures Exec(c, steps + [s]) == Next(Exec(c, steps), s)
  {
    hide Next;
    assert (steps + [s])[..|steps|] == steps;
  }

  lemma {:induction false} ExecOne(c: Core, s: Step)
    ensures Exec(c, [s]) == Next(c, s)
  {
    hide Next;
    assert [s][..0] == [];
  }

  lemma UnusedIds(c: Core, b: Uuid)
    requires Inv(c) && Below(c, b)
    ensures forall id | id >= b :: id !in c.payments.processed && id !in c.orders.processed && id !in c.orders.orders
                                && id !in c.payments.orders && id !in c.payments.payments
    ensures Payments.PaymentsOf(c.payments, b) == {} && b !in c.tickets.tickets
  {
    assert forall id | id in c.payments.orders :: OrderSnapshot(c.orders, c.payments.orders[id], id);
    assert forall id | id in c.payments.payments :: PaymentRow(c.payments, id);
  }

  lemma Reserved(c: Core, t: Uuid, user: string, expiresAt: int, b: Uuid)
    requires Below(c, b) && Free(c, t) && !Blank(user) && b !in c.orders.orders
    ensures var c' := Next(c, ReserveStep(c, t, user, expiresAt, b)); var o := Made(b, expiresAt, user, t);
            && c'.orders == Orders.InsertOrder(c.orders, b, o, Orders.CreatedEvent(b + 1, o, c.orders.tickets[t].price))
            && c'.payments == c.payments && c'.now == c.now && Below(c', b + 2)
  {
    assert Enabled(c, ReserveStep(c, t, user, expiresAt, b));
  }

  lemma PricePositive(c: Core, t: Uuid)
    requires Inv(c) && Free(c, t)
    ensures t in c.orders.tickets && c.orders.tickets[t].price > 0
  {
    assert Snapshot(c.tickets, c.orders.tickets[t], t);
    var h := History(c.tickets.outbox, t);
    HistoryMembers(c.tickets.outbox, t, h[c.orders.tickets[t].version]);
  }

  lemma Announced(c: Core, e: Event, b: Uuid)
    requires e in c.orders.outbox && e.OrderCreated? && ValidOrderEvent(e) && e.version == 0 && e.orderId == b
    requires e.eventId !in c.payments.processed && b !in c.payments.orders && Below(c, b + 2)
    ensures var c' := Next(c, Handle(AtPayments, e, b + 2));
            && c'.orders == c.orders && c'.now == c.now && Below(c', b + 3)
            && var row := Payments.OrderRow(0, e.userId, e.price, Created);
               c'.payments == Payments.Record(c.payments, e.eventId).(orders := c.payments.orders[b := row])
  {
    assert Enabled(c, Handle(AtPayments, e, b + 2));
  }

  lemma PaymentMade(c: Core, user: string, b: Uuid)
    requires Below(c, b + 3) && b in c.payments.orders && c.payments.orders[b].userId == user
             && c.payments.orders[b].status == Created
    requires Payments.PaymentsOf(c.payments, b) == {}
    ensures var c' := Next(c, CreatePayment(b, user, None, b + 3, b + 4));
            && c'.orders == c.orders && c'.now == c.now && Below(c', b + 5)
            && c'.payments == Payments.Put(c.payments, Payments.Payment(b + 3, b, Payments.Pending),
                                           PaymentCreated(b + 4, b + 3, b))
            && (PendingOf(c) == {} ==> PendingOf(c') == {b + 3})
  {
    assert Enabled(c, CreatePayment(b, user, None, b + 3, b + 4));
  }

  lemma Resolved(c: Core, b: Uuid)
    requires Below(c, b + 5) && PendingOf(c) == {b + 3} && c.payments.payments[b + 3].id == b + 3
    requires c.payments.payments[b + 3].orderId == b
    ensures var c' := Next(c, ResolveStep(b));
            && c'.orders == c.orders && c'.now == c.now && Below(c', b + 6)
            && c'.payments.outbox == c.payments.outbox + [SuccessOf(b)] && PendingOf(c') == {}
  {
    assert b + 3 in PendingOf(c);
    assert forall id :: Payments.Claimable(c.payments, {}, id) ==> id in PendingOf(c);
    ResolveLeast(c, b + 3, b + 5);
  }

  /** What a purchase leaves behind. */
  ghost predicate Paid(c: Core, c': Core, t: Uuid, user: string, expiresAt: int, b: Uuid) {
    && c'.orders.orders == c.orders.orders[b := Made(b, expiresAt, user, t)]
    && c'.orders.tickets == c.orders.tickets && c'.orders.processed == c.orders.processed
    && c'.now == c.now && Below(c', b + 6) && PendingOf(c') == {}
    && PaymentCreated(b + 4, b + 3, b) in c'.payments.outbox && SuccessOf(b) in c'.payments.outbox
  }

  lemma {:induction false} PurchasePays(c: Core, t: Uuid, user: string, expiresAt: int, b: Uuid)
    requires Inv(c) && Below(c, b) && Free(c, t) && !Blank(user) && PendingOf(c) == {}
    ensures Paid(c, Exec(c, Purchase(c, t, user, expiresAt, b)), t, user, expiresAt, b)
  {
    hide Next, Inv, Below, Free;
    UnusedIds(c, b);
    PricePositive(c, t);
    Reserved(c, t, user, expiresAt, b);
    ExecOne(c, ReserveStep(c, t, user, expiresAt, b));
    var s1 := [ReserveStep(c, t, user, expiresAt, b)];
    var e := Orders.CreatedEvent(b + 1, Made(b, expiresAt, user, t), c.orders.tickets[t].price);
    Announced(Exec(c, s1), e, b);
    ExecSnoc(c, s1, AnnounceStep(c, t, user, expiresAt, b));
    var s2 := s1 + [AnnounceStep(c, t, user, expiresAt, b)];
    PaymentMade(Exec(c, s2), user, b);
    ExecSnoc(c, s2, CreatePayment(b, user, None, b + 3, b + 4));
    var s3 := s2 + [CreatePayment(b, user, None, b + 3, b + 4)];
    Resolved(Exec(c, s3), b);
    ExecSnoc(c, s3, ResolveStep(b));
  }

  /** Orders hears of the success of an order that is still active. */
  lemma SuccessCompletes(c: Core, b: Uuid, eventId: Uuid)
    requires SuccessOf(b) in c.payments.outbox && b + 5 !in c.orders.processed && Below(c, eventId)
    requires b in c.orders.orders && Orders.Active(c.orders.orders[b].status)
    ensures var c' := Next(c, Handle(AtOrders, SuccessOf(b), eventId));
            && c'.orders.orders == c.orders.orders[b := Orders.Moved(c.orders.orders[b], Complete)]
            && c'.orders.tickets == c.orders.tickets && c'.orders.processed == c.orders.processed + {b + 5}
            && c'.payments == c.payments && c'.now == c.now && Below(c', eventId + 1)
  {
    assert Enabled(c, Handle(AtOrders, SuccessOf(b), eventId));
  }

  /** From every reachable state in which a ticket is free, every user can come to own it. */
  lemma FreeTicketCanBeBought(c: Core, t: Uuid, user: string, lifetime: int) returns (steps: seq<Step>, o: Uuid)
    requires Reachable(c) && Free(c, t) && !Blank(user)
    ensures var orders := Exec(c, steps).orders.orders;
            o in orders && orders[o].ticketId == t && orders[o].userId == user && orders[o].status == Complete
    ensures NoExpirations(steps)
  {
    hide Next, Inv, Below;
    var ready;
    ready, o := Readied(c, t);
    var c0 := Exec(c, ready);
    UnusedIds(c0, o);
    PurchasePays(c0, t, user, c0.now + lifetime, o);
    var purchase := Purchase(c0, t, user, c0.now + lifetime, o);
    SuccessCompletes(Exec(c0, purchase), o, o + 6);
    ExecSnoc(c0, purchase, Handle(AtOrders, SuccessOf(o), o + 6));
    ExecConcat(c, ready, purchase + [Handle(AtOrders, SuccessOf(o), o + 6)]);
    steps := ready + (purchase + [Handle(AtOrders, SuccessOf(o), o + 6)]);
  }

  /** In every reachable state any valid ticket can be put on sale and becomes free in Orders. */
  lemma NewTicketBecomesFree(c: Core, title: string, price: int, owner: string) returns (steps: seq<Step>, t: Uuid)
    requires Reachable(c) && Tickets.ValidMutation(title, price, owner)
    ensures Free(Exec(c, steps), t) && NoExpirations(steps)
  {
    hide Next, Below, Free, TicketLog, OrderLog, PaymentLog, Identifiers, Markers, TicketProjection, OrderProjection,
         Settlement, Exclusive;
    PaymentSteps.ReachableInv(c);
    t := SomeUnused(c);
    UnusedIds(c, t);
    NothingIsForTicket(c, t);
    var create := CreateTicket(title, price, owner, t, t + 1);
    ExecOne(c, create);
    TicketMade(c, title, price, owner, t);
    var e := TicketCreated(t + 1, 0, t, title, price, owner);
    TicketProjected(Next(c, create), e, t + 2);
    ExecSnoc(c, [create], Handle(AtOrders, e, t + 2));
    steps := [create] + [Handle(AtOrders, e, t + 2)];
  }

  lemma NothingIsForTicket(c: Core, t: Uuid)
    requires TicketProjection(c.tickets, c.orders) && OrderLog(c.orders) && t !in c.tickets.tickets
    ensures t !in c.orders.tickets
    ensures forall x | x in c.orders.orders :: c.orders.orders[x].ticketId != t
  {
    assert t in c.orders.tickets ==> Snapshot(c.tickets, c.orders.tickets[t], t);
    assert forall x | x in c.orders.orders :: OrderRow(c.orders, x);
  }

  lemma TicketMade(c: Core, title: string, price: int, owner: string, t: Uuid)
    requires Tickets.ValidMutation(title, price, owner) && Below(c, t)
    ensures var c' := Next(c, CreateTicket(title, price, owner, t, t + 1));
            && c'.tickets.outbox == c.tickets.outbox + [TicketCreated(t + 1, 0, t, title, price, owner)]
            && c'.orders == c.orders && c'.now == c.now && Below(c', t + 2)
  {
    assert Enabled(c, CreateTicket(title, price, owner, t, t + 1));
  }

  lemma TicketProjected(c: Core, e: Event, eventId: Uuid)
    requires e in c.tickets.outbox && e.TicketCreated? && e.version == 0 && ValidTicketEvent(e)
    requires e.eventId !in c.orders.processed && e.ticketId !in c.orders.tickets && Below(c, eventId)
    requires forall x | x in c.orders.orders :: c.orders.orders[x].ticketId != e.ticketId
    ensures Free(Next(c, Handle(AtOrders, e, eventId)), e.ticketId)
  {
    assert Enabled(c, Handle(AtOrders, e, eventId));
  }

  // ----- Two sales -----

  lemma FreeAfterExpiry(c: Core, c1: Core, t: Uuid, user: string, expiresAt: int, o: Uuid)
    requires Free(c, t) && Paid(c, c1, t, user, expiresAt, o) && expiresAt >= c.now
    ensures var c2 := Next(c1, Tick(expiresAt));
            && Free(c2, t) && c2.orders == c1.orders && c2.payments == c1.payments && c2.now == expiresAt
            && Below(c2, o + 6) && PendingOf(c2) == {}
  {
    assert Enabled(c1, Tick(expiresAt));
  }

  /** Without a guard a ticket can be sold twice: from every reachable state in which a ticket is
      free, and for any two users, there is a run that ends with a Complete order of each.  The
      first success reaches Orders only after its order expired and the ticket was sold again. */
  lemma LateSuccessSellsTwice(c: Core, t: Uuid, first: string, second: string, lifetime: nat)
    returns (steps: seq<Step>, a: Uuid, b: Uuid)
    requires Reachable(c) && Free(c, t) && !Blank(first) && !Blank(second)
    ensures var orders := Exec(c, steps).orders.orders;
            && a != b && a in orders && b in orders
            && orders[a].ticketId == t && orders[a].userId == first && orders[a].status == Complete
            && orders[b].ticketId == t && orders[b].userId == second && orders[b].status == Complete
    ensures NoExpirations(steps)
  {
    hide Next, Inv, Below, Reachable;
    var ready, rest;
    ready, a := Readied(c, t);
    b := a + 6;
    rest := SoldTwice(Exec(c, ready), t, first, second, lifetime, a);
    ExecConcat(c, ready, rest);
    steps := ready + rest;
  }

  lemma SoldTwice(c: Core, t: Uuid, first: string, second: string, lifetime: nat, a: Uuid) returns (steps: seq<Step>)
    requires Inv(c) && Free(c, t) && PendingOf(c) == {} && Below(c, a) && !Blank(first) && !Blank(second)
    ensures var orders := Exec(c, steps).orders.orders; var b := a + 6;
            && a in orders && b in orders
            && orders[a].ticketId == t && orders[a].userId == first && orders[a].status == Complete
            && orders[b].ticketId == t && orders[b].userId == second && orders[b].status == Complete
    ensures NoExpirations(steps)
  {
    hide Next, Inv, Below, Purchase;
    var b := a + 6;
    UnusedIds(c, a);
    var expiry := c.now + lifetime;
    var steps1 := Purchase(c, t, first, expiry, a);
    PurchasePays(c, t, first, expiry, a);
    var c1 := Exec(c, steps1);
    FreeAfterExpiry(c, c1, t, first, expiry, a);
    var steps2 := steps1 + [Tick(expiry)];
    ExecSnoc(c, steps1, Tick(expiry));
    var c2 := Exec(c, steps2);
    PaymentSteps.ExecInv(c, steps2);
    UnusedIds(c2, b);
    var steps3 := Purchase(c2, t, second, expiry + lifetime, b);
    PurchasePays(c2, t, second, expiry + lifetime, b);
    ExecConcat(c, steps2, steps3);
    LedgerStays(c2, steps3);
    var c3 := Exec(c, steps2 + steps3);
    SuccessCompletes(c3, b, b + 6);
    var steps4 := steps2 + steps3 + [Handle(AtOrders, SuccessOf(b), b + 6)];
    ExecSnoc(c, steps2 + steps3, Handle(AtOrders, SuccessOf(b), b + 6));
    SuccessCompletes(Exec(c, steps4), a, b + 7);
    steps := steps4 + [Handle(AtOrders, SuccessOf(a), b + 7)];
    ExecSnoc(c, steps4, Handle(AtOrders, SuccessOf(a), b + 7));
    PurchaseHasNoExpirations(c, t, first, expiry, a);
    PurchaseHasNoExpirations(c2, t, second, expiry + lifetime, b);
  }

  lemma PurchaseHasNoExpirations(c: Core, t: Uuid, user: string, expiresAt: int, b: Uuid)
    requires t in c.orders.tickets
    ensures NoExpirations(Purchase(c, t, user, expiresAt, b))
  {
  }

  lemma {:induction false} LedgerStays(c: Core, steps: seq<Step>)
    ensures forall e | e in c.payments.outbox :: e in Exec(c, steps).payments.outbox
  {
    Growth.ExecGrows(c, steps);
  }

  // ----- A cancellation that Payments never learns of -----

  lemma PaymentNoticed(c: Core, o: Uuid)
    requires PaymentCreated(o + 4, o + 3, o) in c.payments.outbox && o + 4 !in c.orders.processed && Below(c, o + 6)
    requires o in c.orders.orders && c.orders.orders[o].status == Created
    ensures var c' := Next(c, Handle(AtOrders, PaymentCreated(o + 4, o + 3, o), o + 6));
            && c'.orders.orders == c.orders.orders[o := Orders.Moved(c.orders.orders[o], AwaitingPayment)]
            && c'.payments == c.payments && Below(c', o + 7)
  {
    assert Enabled(c, Handle(AtOrders, PaymentCreated(o + 4, o + 3, o), o + 6));
  }

  lemma OrderCanceledByUser(c: Core, o: Uuid, user: string)
    requires o in c.orders.orders && c.orders.orders[o].userId == user && c.orders.orders[o].status == AwaitingPayment
             && Below(c, o + 7)
    ensures var c' := Next(c, CancelOrder(o, user, o + 7)); var row := Orders.Moved(c.orders.orders[o], Canceled);
            && o in c'.orders.orders && c'.orders.orders[o] == row && c'.payments == c.payments
            && Orders.CanceledEvent(o + 7, row) in c'.orders.outbox
  {
    assert Enabled(c, CancelOrder(o, user, o + 7));
  }

  /** From every reachable state with a free ticket there is a run in which a user pays, Orders
      learns that there is a payment, and the user cancels before it learns of the success: the
      order is Canceled for good although the payment Succeeded, and in no continuation does
      Payments apply or record the cancellation. */
  lemma PaidOrderCanBeCanceledUnnoticed(c: Core, t: Uuid, user: string, lifetime: int)
    returns (steps: seq<Step>, o: Uuid, canceled: Event)
    requires Reachable(c) && Free(c, t) && !Blank(user)
    ensures Unnoticed(Exec(c, steps), o, canceled)
    ensures forall more :: Unapplied(Exec(Exec(c, steps), more), o, canceled)
    ensures NoExpirations(steps)
  {
    hide Next, Inv, Below, Purchase, Reachable, Unapplied;
    var ready;
    ready, o := Readied(c, t);
    var c0 := Exec(c, ready);
    UnusedIds(c0, o);
    var purchase := Purchase(c0, t, user, c0.now + lifetime, o);
    PurchasePays(c0, t, user, c0.now + lifetime, o);
    PurchaseHasNoExpirations(c0, t, user, c0.now + lifetime, o);
    var noticed := Handle(AtOrders, PaymentCreated(o + 4, o + 3, o), o + 6);
    PaymentNoticed(Exec(c0, purchase), o);
    ExecSnoc(c0, purchase, noticed);
    var c1 := Exec(c0, purchase + [noticed]);
    OrderCanceledByUser(c1, o, user);
    var rest := purchase + [noticed] + [CancelOrder(o, user, o + 7)];
    ExecSnoc(c0, purchase + [noticed], CancelOrder(o, user, o + 7));
    ExecConcat(c, ready, rest);
    steps := ready + rest;
    canceled := Orders.CanceledEvent(o + 7, Exec(c, steps).orders.orders[o]);
    ReachableExec(c, steps);
    UnnoticedForEver(Exec(c, steps), o, canceled);
  }

  /** The order is Canceled at version 2, its payment succeeded. */
  ghost predicate Unnoticed(c: Core, o: Uuid, canceled: Event) {
    && o in c.orders.orders && c.orders.orders[o].status == Canceled && SuccessOf(o) in c.payments.outbox
    && canceled in c.orders.outbox && canceled.OrderCanceled? && canceled.orderId == o && canceled.version == 2
  }

  ghost predicate Unapplied(c: Core, o: Uuid, canceled: Event) {
    && o in c.orders.orders && c.orders.orders[o].status == Canceled
    && canceled.eventId !in c.payments.processed && (o in c.payments.orders ==> c.payments.orders[o].status == Created)
  }

  lemma {:induction false} UnnoticedForEver(c: Core, o: Uuid, canceled: Event)
    requires Reachable(c) && Unnoticed(c, o, canceled)
    ensures forall more :: Unapplied(Exec(c, more), o, canceled)
  {
    hide Next, Reachable;
    forall more
      ensures Unapplied(Exec(c, more), o, canceled)
    {
      Money.VersionTwoCancellationIsLost(c, more, canceled);
      Lifecycle.TerminalIsFinal(c, more, o);
    }
  }

  // ----- Passes -----

  /** Whatever was emitted can be delivered to any service in any order, so the passes that
      Convergence speaks of exist. */
  lemma {:induction false} SomePass(c: Core, at: Service, events: seq<Event>) returns (pass: seq<Step>)
    requires forall e | e in events :: Emitted(c, e)
    ensures Convergence.PossibleRun(c, pass) && Convergence.DeliversTo(pass, at)
    ensures |pass| == |events| && forall i | 0 <= i < |events| :: pass[i].Handle? && pass[i].event == events[i]
  {
    hide Next, Enabled, Emitted;
    pass := [];
    if events != [] {
      var n := |events| - 1;
      pass := SomePass(c, at, events[..n]);
      var c1 := Exec(c, pass);
      var id := SomeBound(c1.issued);
      var s := Handle(at, events[n], id);
      DeliveryIsPossible(c, pass, s);
      PossibleSnoc(c, pass, s);
      pass := pass + [s];
    }
  }

  lemma {:induction false} DeliveryIsPossible(c: Core, steps: seq<Step>, s: Step)
    requires s.Handle? && Emitted(c, s.event) && forall id | id in Exec(c, steps).issued :: id < s.eventId
    ensures Enabled(Exec(c, steps), s)
  {
    hide Exec;
    Growth.ExecGrows(c, steps);
  }

  lemma {:induction false} PossibleSnoc(c: Core, steps: seq<Step>, s: Step)
    requires Convergence.PossibleRun(c, steps) && Enabled(Exec(c, steps), s)
    ensures Convergence.PossibleRun(c, steps + [s])
  {
    hide Enabled, Exec;
    var longer := steps + [s];
    assert longer[..|steps|] == steps;
    assert forall i | 0 <= i < |steps| :: longer[..i] == steps[..i];
  }

  // ----- The same in the world -----

  lemma {:induction false} NoExpirationsAreDue(c: Core, steps: seq<Step>)
    requires NoExpirations(steps)
    ensures Realization.AllDue(c, steps)
  {
  }

  /** Outboxes, streams and durables do not prevent it: whatever the ticket, its owner and the two
      buyers, some course of the world from the start sells the ticket to both. */
  lemma SomeCourseSellsTwice(now: int, title: string, price: int, owner: string, first: string, second: string,
                             lifetime: nat)
    returns (hs: seq<World.Happening>, a: Uuid, b: Uuid)
    requires Tickets.ValidMutation(title, price, owner) && !Blank(first) && !Blank(second)
    ensures var orders := World.Course(now, hs).core.orders.orders;
            && a != b && a in orders && b in orders && orders[a].ticketId == orders[b].ticketId
            && orders[a].userId == first && orders[a].status == Complete
            && orders[b].userId == second && orders[b].status == Complete
  {
    hide Next, World.Course, Reachable, Tickets.ValidMutation, Realization.AllDue, Free;
    InitialIsReachable(now);
    var selling, t := NewTicketBecomesFree(Initial(now), title, price, owner);
    ReachableExec(Initial(now), selling);
    var steps;
    steps, a, b := LateSuccessSellsTwice(Exec(Initial(now), selling), t, first, second, lifetime);
    ExecConcat(Initial(now), selling, steps);
    NoExpirationsAreDue(Initial(now), selling + steps);
    hs := Realization.RunIsRealizable(now, selling + steps);
  }

  /** And some course cancels a paid order so that no continuation of it tells Payments. */
  lemma SomeCourseCancelsUnnoticed(now: int, title: string, price: int, owner: string, user: string, lifetime: int)
    returns (hs: seq<World.Happening>, o: Uuid, canceled: Event)
    requires Tickets.ValidMutation(title, price, owner) && !Blank(user)
    ensures Unnoticed(World.Course(now, hs).core, o, canceled)
    ensures forall more :: Unapplied(World.Course(now, hs + more).core, o, canceled)
  {
    hide Next, World.Course, Reachable, Tickets.ValidMutation, Realization.AllDue, Free, Unapplied;
    InitialIsReachable(now);
    var selling, t := NewTicketBecomesFree(Initial(now), title, price, owner);
    ReachableExec(Initial(now), selling);
    var steps;
    steps, o, canceled := PaidOrderCanBeCanceledUnnoticed(Exec(Initial(now), selling), t, user, lifetime);
    ExecConcat(Initial(now), selling, steps);
    NoExpirationsAreDue(Initial(now), selling + steps);
    hs := Realization.RunIsRealizable(now, selling + steps);
    forall more
      ensures Unapplied(World.Course(now, hs + more).core, o, canceled)
    {
      World.CourseIsReachable(now, hs + more);
      World.CourseGrows(now, hs, more);
      UnnoticedStays(World.Course(now, hs).core, World.Course(now, hs + more).core, o, canceled);
    }
  }

  lemma UnnoticedStays(c: Core, c': Core, o: Uuid, canceled: Event)
    requires Unnoticed(c, o, canceled) && Growth.Grows(c, c') && Reachable(c')
    ensures Unapplied(c', o, canceled)
  {
    hide Reachable;
    assert Growth.OrderGrows(c.orders.orders[o], c'.orders.orders[o]);
    UnnoticedForEver(c', o, canceled);
    assert Exec(c', []) == c';
  }

  lemma {:induction false} InitialIsReachable(now: int)
    ensures Reachable(Initial(now))
  {
    assert Exec(Initial(now), []) == Initial(now);
  }
}
