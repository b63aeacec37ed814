/** How often a ticket is sold, and under which guards exactly once. */
module Sales {
  import opened Events
  import opened Saga
  import Tickets
  import Orders
  import Payments
  import Growth

  // ----- At most one paid or live order -----

  /** No two orders of a ticket are each paid or live. */
  ghost predicate Sole(orders: map<Uuid, Orders.Order>, now: int) {
    forall a, b | a in orders && b in orders && orders[a].ticketId == orders[b].ticketId
                  && Orders.Blocks(orders[a], orders[a].ticketId, now)
                  && Orders.Blocks(orders[b], orders[b].ticketId, now) :: a == b
  }

  /** The step completes order `o`. */
  ghost predicate Completes(c: Core, s: Step, o: Uuid) {
    && o in c.orders.orders && Orders.Active(c.orders.orders[o].status)
    && o in Next(c, s).orders.orders && Next(c, s).orders.orders[o].status == Complete
  }

  /** What findBlockingOrder, asked for the ticket of `o`, would have to return: nothing or `o`. */
  ghost predicate NothingElseBlocks(c: Core, o: Uuid)
    requires o in c.orders.orders
  {
    forall x | x in c.orders.orders && Orders.Blocks(c.orders.orders[x], c.orders.orders[o].ticketId, c.now) :: x == o
  }

  /** The guard ApplyPaymentSucceeded does not have. */
  ghost predicate Guarded(c: Core, s: Step) {
    forall o | Completes(c, s, o) :: NothingElseBlocks(c, o)
  }

  lemma OnlySuccessCompletes(c: Core, s: Step, o: Uuid)
    requires Completes(c, s, o)
    ensures s.Handle? && s.at == AtOrders && s.event.PaymentSucceeded? && s.event.orderId == o
    ensures Next(c, s).now == c.now
            && Next(c, s).orders.orders == c.orders.orders[o := Orders.Moved(c.orders.orders[o], Complete)]
  {
    hide Tickets.Handle, Payments.Handle;
  }

  /** What a step other than a reservation does to an order: nothing, or it moves it. */
  lemma OrderMovesOrStays(c: Core, s: Step, o: Uuid)
    requires o in Next(c, s).orders.orders && !s.ReserveTicket?
    ensures o in c.orders.orders
    ensures var before, after := c.orders.orders[o], Next(c, s).orders.orders[o];
            after == before || (Orders.Active(before.status) && after == Orders.Moved(before, after.status)
                                && after.status != Created)
  {
    hide Tickets.Handle, Payments.Handle;
  }

  /** A reservation changes no order, and makes one only for a ticket that nothing blocks. */
  lemma ReservationAddsOrStays(c: Core, s: Step, o: Uuid)
    requires o in Next(c, s).orders.orders && s.ReserveTicket?
    ensures o in c.orders.orders ==> Next(c, s).orders.orders[o] == c.orders.orders[o]
    ensures o !in c.orders.orders ==>
              && s.orderId == o && s.ticketId == Next(c, s).orders.orders[o].ticketId
              && Next(c, s).orders.orders[o].status == Created && s.txNow <= c.now
              && forall x | x in c.orders.orders :: !Orders.Blocks(c.orders.orders[x], s.ticketId, s.txNow)
  {
  }

  /** An order that blocks its ticket after a step that does not complete it blocked it before,
      unless it is new and nothing blocked the ticket when it was made. */
  lemma BlockedBefore(c: Core, s: Step, o: Uuid)
    requires o in Next(c, s).orders.orders && !Completes(c, s, o)
    requires Orders.Blocks(Next(c, s).orders.orders[o], Next(c, s).orders.orders[o].ticketId, Next(c, s).now)
    ensures o in c.orders.orders ==>
              c.orders.orders[o].ticketId == Next(c, s).orders.orders[o].ticketId
              && Orders.Blocks(c.orders.orders[o], c.orders.orders[o].ticketId, c.now)
    ensures o !in c.orders.orders ==>
              s.ReserveTicket? && s.orderId == o && s.ticketId == Next(c, s).orders.orders[o].ticketId
              && forall x | x in c.orders.orders :: !Orders.Blocks(c.orders.orders[x], s.ticketId, c.now)
  {
    hide Next;
    Growth.NextGrows(c, s);
    if s.ReserveTicket? {
      ReservationAddsOrStays(c, s, o);
    } else {
      OrderMovesOrStays(c, s, o);
    }
  }

  lemma GuardedKeepsSole(c: Core, s: Step)
    requires Sole(c.orders.orders, c.now) && Guarded(c, s)
    ensures Sole(Next(c, s).orders.orders, Next(c, s).now)
  {
    hide Next;
    var c' := Next(c, s);
    forall a, b | a in c'.orders.orders && b in c'.orders.orders
           && c'.orders.orders[a].ticketId == c'.orders.orders[b].ticketId
                  && Orders.Blocks(c'.orders.orders[a], c'.orders.orders[a].ticketId, c'.now)
                  && Orders.Blocks(c'.orders.orders[b], c'.orders.orders[b].ticketId, c'.now)
      ensures a == b
    {
      if Completes(c, s, a) {
        OnlySuccessCompletes(c, s, a);
        if !Completes(c, s, b) {
          BlockedBefore(c, s, b);
        }
      } else if Completes(c, s, b) {
        OnlySuccessCompletes(c, s, b);
        BlockedBefore(c, s, a);
      } else {
        BlockedBefore(c, s, a);
        BlockedBefore(c, s, b);
      }
    }
  }

  lemma SoleNeedsGuard(c: Core, s: Step)
    requires Sole(Next(c, s).orders.orders, Next(c, s).now)
    ensures Guarded(c, s)
  {
    hide Next;
    forall o | Completes(c, s, o)
      ensures NothingElseBlocks(c, o)
    {
      OnlySuccessCompletes(c, s, o);
      var orders' := Next(c, s).orders.orders;
      assert forall x | x in c.orders.orders && x != o :: x in orders' && orders'[x] == c.orders.orders[x];
    }
  }

  /** The run from `c` asks findBlockingOrder's question before every completion. */
  ghost predicate GuardedRun(c: Core, steps: seq<Step>) {
    forall i | 0 <= i < |steps| :: Guarded(Exec(c, steps[..i]), steps[i])
  }

  ghost predicate SoleThroughout(c: Core, steps: seq<Step>) {
    forall i | 0 <= i <= |steps| :: Sole(Exec(c, steps[..i]).orders.orders, Exec(c, steps[..i]).now)
  }

  lemma {:induction false} ExecNext(c: Core, steps: seq<Step>, i: nat)
    requires i < |steps|
    ensures Exec(c, steps[..i + 1]) == Next(Exec(c, steps[..i]), steps[i])
  {
    assert steps[..i + 1][..i] == steps[..i];
  }

  /** Exactly the guarded runs keep, at every moment, at most one paid or live order per ticket. */
  lemma SoleIffGuarded(now: int, steps: seq<Step>)
    ensures SoleThroughout(Initial(now), steps) <==> GuardedRun(Initial(now), steps)
  {
    hide Next, Sole, Guarded;
    var c := Initial(now);
    if SoleThroughout(c, steps) {
      forall i | 0 <= i < |steps|
        ensures Guarded(Exec(c, steps[..i]), steps[i])
      {
        ExecNext(c, steps, i);
        assert Sole(Exec(c, steps[..i + 1]).orders.orders, Exec(c, steps[..i + 1]).now);
        SoleNeedsGuard(Exec(c, steps[..i]), steps[i]);
      }
    }
    if GuardedRun(c, steps) {
      forall i | 0 <= i <= |steps|
        ensures Sole(Exec(c, steps[..i]).orders.orders, Exec(c, steps[..i]).now)
      {
        SoleAt(now, steps, i);
      }
    }
  }

  lemma {:induction false} SoleAt(now: int, steps: seq<Step>, i: nat)
    requires i <= |steps| && GuardedRun(Initial(now), steps)
    ensures Sole(Exec(Initial(now), steps[..i]).orders.orders, Exec(Initial(now), steps[..i]).now)
  {
    if i > 0 {
      hide Next, Guarded;
      SoleAt(now, steps, i - 1);
      ExecNext(Initial(now), steps, i - 1);
      assert Guarded(Exec(Initial(now), steps[..i - 1]), steps[i - 1]);
      GuardedKeepsSole(Exec(Initial(now), steps[..i - 1]), steps[i - 1]);
    }
  }

  // ----- At most one sale -----

  /** No ticket has two Complete orders. */
  ghost predicate SoldOnce(orders: map<Uuid, Orders.Order>) {
    forall a, b | a in orders && b in orders && orders[a].ticketId == orders[b].ticketId
                  && orders[a].status == Complete && orders[b].status == Complete :: a == b
  }

  /** Before the step completes an order, its ticket has no Complete one. */
  ghost predicate SaleGuarded(c: Core, s: Step) {
    forall o, x | Completes(c, s, o) && x in c.orders.orders
           && c.orders.orders[x].ticketId == c.orders.orders[o].ticketId ::
      c.orders.orders[x].status != Complete
  }

  /** An order that is Complete after a step that does not complete it was so before, unchanged. */
  lemma CompleteBefore(c: Core, s: Step, o: Uuid)
    requires o in Next(c, s).orders.orders && Next(c, s).orders.orders[o].status == Complete && !Completes(c, s, o)
    ensures o in c.orders.orders && c.orders.orders[o] == Next(c, s).orders.orders[o]
  {
    hide Next;
    if s.ReserveTicket? {
      ReservationAddsOrStays(c, s, o);
    } else {
      OrderMovesOrStays(c, s, o);
    }
  }

  lemma CompleteStays(c: Core, s: Step, o: Uuid)
    requires o in c.orders.orders && c.orders.orders[o].status == Complete
    ensures o in Next(c, s).orders.orders && Next(c, s).orders.orders[o] == c.orders.orders[o]
  {
    hide Next;
    Growth.NextGrows(c, s);
    assert Growth.OrderGrows(c.orders.orders[o], Next(c, s).orders.orders[o]);
  }

  /** After a step no ticket is sold twice if and only if none was before and the step asked. */
  lemma SoldOnceStep(c: Core, s: Step)
    ensures SoldOnce(Next(c, s).orders.orders) <==> SoldOnce(c.orders.orders) && SaleGuarded(c, s)
  {
    hide Next;
    var c' := Next(c, s);
    forall o | o in c.orders.orders && c.orders.orders[o].status == Complete
      ensures o in c'.orders.orders && c'.orders.orders[o] == c.orders.orders[o]
    {
      CompleteStays(c, s, o);
    }
    forall o | Completes(c, s, o)
      ensures c'.orders.orders == c.orders.orders[o := Orders.Moved(c.orders.orders[o], Complete)]
    {
      OnlySuccessCompletes(c, s, o);
    }
    forall o | o in c'.orders.orders && c'.orders.orders[o].status == Complete && !Completes(c, s, o)
      ensures o in c.orders.orders && c.orders.orders[o] == c'.orders.orders[o]
    {
      CompleteBefore(c, s, o);
    }
  }

  /** The run from `c` asks before every completion whether the ticket is sold already. */
  ghost predicate SaleGuardedRun(c: Core, steps: seq<Step>) {
    forall i | 0 <= i < |steps| :: SaleGuarded(Exec(c, steps[..i]), steps[i])
  }

  /** A run ends with at most one Complete order per ticket if and only if before each completion
      the ticket had no Complete order yet. */
  lemma {:induction false} SoldOnceIffGuarded(now: int, steps: seq<Step>)
    ensures SoldOnce(Exec(Initial(now), steps).orders.orders) <==> SaleGuardedRun(Initial(now), steps)
  {
    hide Next, SoldOnce, SaleGuarded;
    if steps == [] {
      NothingIsSold(now);
    } else {
      var n := |steps| - 1;
      SoldOnceIffGuarded(now, steps[..n]);
      SoldOnceStep(Exec(Initial(now), steps[..n]), steps[n]);
      SaleGuardedSnoc(Initial(now), steps);
    }
  }

  lemma {:induction false} SaleGuardedSnoc(c: Core, steps: seq<Step>)
    requires steps != []
    ensures var n := |steps| - 1;
            SaleGuardedRun(c, steps) <==> SaleGuardedRun(c, steps[..n]) && SaleGuarded(Exec(c, steps[..n]), steps[n])
  {
    hide Exec, SaleGuarded;
    var n := |steps| - 1;
    assert forall i | 0 <= i < n :: steps[..n][..i] == steps[..i] && steps[..n][i] == steps[i];
  }

  lemma NothingIsSold(now: int)
    ensures SoldOnce(Exec(Initial(now), []).orders.orders)
  {
  }

  /** What was sold twice once stays so: uniqueness at the end is uniqueness throughout. */
  lemma {:induction false} SoldOnceThroughout(c: Core, steps: seq<Step>, i: nat)
    requires i <= |steps| && SoldOnce(Exec(c, steps).orders.orders)
    ensures SoldOnce(Exec(c, steps[..i]).orders.orders)
    decreases |steps| - i
  {
    hide Next, SoldOnce, SaleGuarded;
    if i == |steps| {
      assert steps[..i] == steps;
    } else {
      SoldOnceThroughout(c, steps, i + 1);
      ExecNext(c, steps, i);
      SoldOnceStep(Exec(c, steps[..i]), steps[i]);
    }
  }

  /** The guard against any blocking order contains the guard against a sale. */
  lemma GuardedIsSaleGuarded(c: Core, s: Step)
    requires Guarded(c, s)
    ensures SaleGuarded(c, s)
  {
    forall o, x | Completes(c, s, o) && x in c.orders.orders
           && c.orders.orders[x].ticketId == c.orders.orders[o].ticketId
      ensures c.orders.orders[x].status != Complete
    {
      assert NothingElseBlocks(c, o);
    }
  }

  /** Every completion of the run happens before its order expires. */
  ghost predicate TimelyRun(c: Core, steps: seq<Step>) {
    forall i, o | 0 <= i < |steps| && Completes(Exec(c, steps[..i]), steps[i], o) ::
      Exec(c, steps[..i]).orders.orders[o].expiresAt > Exec(c, steps[..i]).now
  }

  lemma TimelyIsGuarded(c: Core, s: Step, o: Uuid)
    requires Sole(c.orders.orders, c.now) && Completes(c, s, o) && c.orders.orders[o].expiresAt > c.now
    ensures NothingElseBlocks(c, o)
  {
  }

  lemma {:induction false} TimelyRunIsSole(now: int, steps: seq<Step>, i: nat)
    requires i <= |steps| && TimelyRun(Initial(now), steps)
    ensures Sole(Exec(Initial(now), steps[..i]).orders.orders, Exec(Initial(now), steps[..i]).now)
  {
    if i > 0 {
      hide Next;
      var before := Exec(Initial(now), steps[..i - 1]);
      TimelyRunIsSole(now, steps, i - 1);
      ExecNext(Initial(now), steps, i - 1);
      forall o | Completes(before, steps[i - 1], o)
        ensures NothingElseBlocks(before, o)
      {
        TimelyIsGuarded(before, steps[i - 1], o);
      }
      GuardedKeepsSole(before, steps[i - 1]);
    }
  }

  /** When every success is applied before its order expires, a ticket is sold at most once. */
  lemma {:induction false} TimelySalesAreUnique(now: int, steps: seq<Step>, a: Uuid, b: Uuid)
    requires TimelyRun(Initial(now), steps)
    requires var orders := Exec(Initial(now), steps).orders.orders;
             a in orders && b in orders && orders[a].ticketId == orders[b].ticketId
             && orders[a].status == Complete && orders[b].status == Complete
    ensures a == b
  {
    hide Next, TimelyRun;
    assert steps[..|steps|] == steps;
    TimelyRunIsSole(now, steps, |steps|);
  }
}
