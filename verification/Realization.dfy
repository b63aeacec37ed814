/** The converse of World.CourseIsReachable: streams, durables and outboxes restrict the services
    in nothing but the moment of an expiration, so every run of the Saga machine whose
    expirations are due is one that the real transport can produce. */
module Realization {
  import opened Events
  import opened Saga
  import opened Consumers
  import opened World
  import opened ExactlyOnce
  import PaymentSteps
  import Invariants
  import Growth

  /** The durable through which a service receives an event. */
  function DurableFor(e: Event): Durable {
    match e
    case TicketCreated(_, _, _, _, _, _) => OrdersTicketProjection
    case TicketUpdated(_, _, _, _, _, _) => OrdersTicketProjection
    case OrderCreated(_, _, _, _, _, _, _, _) => TicketsOrderReservation
    case OrderCanceled(_, _, _, _) => TicketsOrderCancellation
    case PaymentCreated(_, _, _) => OrdersPaymentCreated
    case PaymentSucceeded(_, _, _) => OrdersPaymentSucceeded
    case PaymentFailed(_, _, _) => OrdersPaymentFailed
    case ExpirationComplete(_, _) => OrdersExpirationComplete
  }

  function DurableAt(at: Service, e: Event): Durable {
    if at == AtPayments then PaymentsOrderProjection else DurableFor(e)
  }

  /** An expiration is handled only after its order has expired. */
  ghost predicate Due(c: Core, s: Step) {
    s.Handle? && s.event.ExpirationComplete? ==>
      s.event.orderId in c.orders.orders && c.orders.orders[s.event.orderId].expiresAt <= c.now
  }

  ghost predicate AllDue(c: Core, steps: seq<Step>) {
    forall i | 0 <= i < |steps| :: Due(Exec(c, steps[..i]), steps[i])
  }

  lemma {:induction false} CourseSnoc(now: int, hs: seq<Happening>, h: Happening)
    ensures Course(now, hs + [h]) == Progress(Course(now, hs), h)
  {
    hide Progress;
    assert (hs + [h])[..|hs|] == hs;
  }

  /** A service takes an event only from a durable of its own. */
  lemma EffectiveIsSubscribed(c: Core, s: Step)
    requires s.Handle? && Effective(c, s)
    ensures var d := DurableAt(s.at, s.event); Subscribed(d, s.event) && ServiceOf(d) == s.at
    ensures SourceOf(DurableAt(s.at, s.event)) == ExpirationStream <==> s.event.ExpirationComplete?
    ensures !s.event.ExpirationComplete? ==> s.event in Log(c, SourceOf(DurableAt(s.at, s.event)))
    ensures s.event.ExpirationComplete? ==> s.event.eventId == s.event.orderId && s.event.orderId in c.orders.orders
  {
  }

  /** At position `pos` of the stream of `d` there is a pending copy of `e`. */
  ghost predicate Pending(w: World, d: Durable, pos: nat, e: Event) {
    pos < |Stream(w.streams, SourceOf(d))| && Stream(w.streams, SourceOf(d))[pos] == e && (d, pos) !in w.acked
  }

  lemma Published(now: int, hs: seq<Happening>, d: Durable, e: Event) returns (hs': seq<Happening>, pos: nat)
    requires e in Log(Course(now, hs).core, SourceOf(d))
    ensures Course(now, hs').core == Course(now, hs).core && Pending(Course(now, hs'), d, pos, e)
    ensures e in Stream(Course(now, hs').streams, SourceOf(d))
  {
    var w := Course(now, hs);
    var row :| 0 <= row < |Log(w.core, SourceOf(d))| && Log(w.core, SourceOf(d))[row] == e;
    var h := Accept(SourceOf(d), row, false);
    CourseSnoc(now, hs, h);
    hs', pos := hs + [h], |Stream(w.streams, SourceOf(d))|;
    AppendedIsPending(now, hs, Course(now, hs'), d, e);
  }

  lemma {:induction false} AppendedIsPending(now: int, hs: seq<Happening>, w': World, d: Durable, e: Event)
    requires var w := Course(now, hs); w' == w.(streams := Append(w.streams, SourceOf(d), e))
    ensures Pending(w', d, |Stream(Course(now, hs).streams, SourceOf(d))|, e)
  {
    hide Course;
    CourseTransport(now, hs);
  }

  lemma Announced(now: int, hs: seq<Happening>, o: Uuid) returns (hs': seq<Happening>, pos: nat)
    requires var c := Course(now, hs).core; o in c.orders.orders && c.orders.orders[o].expiresAt <= c.now
    ensures Course(now, hs').core == Course(now, hs).core
    ensures Pending(Course(now, hs'), OrdersExpirationComplete, pos, ExpirationComplete(o, o))
  {
    hide Course, Progress, Reachable, Pending;
    CourseIsReachable(now, hs);
    var e := CreationOf(Course(now, hs).core, o);
    var hs1, pos1 := Published(now, hs, PaymentsOrderProjection, e);
    CourseSnoc(now, hs1, Expire(o));
    ExpireStep(Course(now, hs1), o, e);
    hs' := hs1 + [Expire(o)];
    pos := |Stream(Course(now, hs1).streams, ExpirationStream)|;
    AppendedIsPending(now, hs1, Course(now, hs'), OrdersExpirationComplete, ExpirationComplete(o, o));
  }

  lemma ExpireStep(w: World, o: Uuid, e: Event)
    requires o in w.core.orders.orders && w.core.orders.orders[o].expiresAt <= w.core.now
    requires e in w.streams.orders && e.OrderCreated? && e.orderId == o
    ensures Progress(w, Expire(o)) == w.(streams := Append(w.streams, ExpirationStream, ExpirationComplete(o, o)))
  {
  }

  lemma CreationOf(c: Core, o: Uuid) returns (e: Event)
    requires Reachable(c) && o in c.orders.orders
    ensures e in c.orders.outbox && e.OrderCreated? && e.orderId == o
  {
    PaymentSteps.ReachableInv(c);
    assert Invariants.OrderRow(c.orders, o);
    e :| e in c.orders.outbox && e.OrderCreated? && e.orderId == o;
  }

  lemma DeliverStep(w: World, d: Durable, pos: nat, e: Event, eventId: Uuid)
    requires Pending(w, d, pos, e) && Subscribed(d, e) && Enabled(w.core, Handle(ServiceOf(d), e, eventId))
    ensures Progress(w, Deliver(d, pos, NoFault, true, true, eventId)).core ==
            Saga.Next(w.core, Handle(ServiceOf(d), e, eventId))
  {
    hide Enabled, Saga.Next, Settle, Answer;
  }

  /** The transport can bring about any effective step that is due. */
  lemma StepIsRealizable(now: int, hs: seq<Happening>, s: Step) returns (hs': seq<Happening>)
    requires Effective(Course(now, hs).core, s) && Due(Course(now, hs).core, s)
    ensures Course(now, hs').core == Saga.Next(Course(now, hs).core, s)
  {
    hide Course, Progress, Saga.Next, Pending, Enabled;
    var w := Course(now, hs);
    if s.Handle? {
      EffectiveIsSubscribed(w.core, s);
      var d := DurableAt(s.at, s.event);
      var hs1, pos;
      if s.event.ExpirationComplete? {
        hs1, pos := Announced(now, hs, s.event.orderId);
      } else {
        hs1, pos := Published(now, hs, d, s.event);
      }
      var h := Deliver(d, pos, NoFault, true, true, s.eventId);
      DeliverStep(Course(now, hs1), d, pos, s.event, s.eventId);
      CourseSnoc(now, hs1, h);
      hs' := hs1 + [h];
    } else {
      CourseSnoc(now, hs, Local(s));
      LocalStep(w, s);
      hs' := hs + [Local(s)];
    }
  }

  lemma LocalStep(w: World, s: Step)
    requires !s.Handle? && Enabled(w.core, s)
    ensures Progress(w, Local(s)).core == Saga.Next(w.core, s)
  {
    hide Enabled, Saga.Next;
  }

  lemma DueIsTransferable(a: Core, b: Core, s: Step)
    requires SameTables(a, b) && Due(a, s)
    ensures Due(b, s)
  {
  }

  /** Every run of the Saga machine whose expirations are due leaves databases that some run of
      the world, through outboxes, streams and durables, leaves too. */
  lemma {:induction false} RunIsRealizable(now: int, steps: seq<Step>) returns (hs: seq<Happening>)
    requires AllDue(Initial(now), steps)
    ensures SameTables(Exec(Initial(now), steps), Course(now, hs).core)
  {
    hide Course, Saga.Next, Effective, Due;
    if steps == [] {
      hs := [];
      StartsAlike(now);
    } else {
      var n := |steps| - 1;
      var front := steps[..n];
      assert forall i | 0 <= i < n :: front[..i] == steps[..i];
      var hs1 := RunIsRealizable(now, front);
      var a, b := Exec(Initial(now), front), Course(now, hs1).core;
      assert Due(Exec(Initial(now), steps[..n]), steps[n]);
      if Effective(a, steps[n]) {
        EffectiveIsTransferable(a, b, steps[n]);
        DueIsTransferable(a, b, steps[n]);
        hs := StepIsRealizable(now, hs1, steps[n]);
      } else {
        IneffectiveChangesNothing(a, steps[n]);
        hs := hs1;
      }
    }
  }

  lemma {:induction false} StartsAlike(now: int)
    ensures Course(now, []).core == Initial(now)
  {
  }

  // ----- And no others -----

  ghost predicate ExpiredOnStream(w: World) {
    forall e | e in w.streams.expirations ::
      e.ExpirationComplete? && e.orderId in w.core.orders.orders
        && w.core.orders.orders[e.orderId].expiresAt <= w.core.now
  }

  lemma ProgressKeepsExpired(w: World, a: Happening)
    requires ExpiredOnStream(w)
    ensures ExpiredOnStream(Progress(w, a))
  {
    hide Saga.Next, Enabled, Settle, Answer;
    var w' := Progress(w, a);
    ProgressIsSagaStep(w, a);
    if w'.core != w.core {
      var s :| w'.core == Saga.Next(w.core, s);
      Growth.NextGrows(w.core, s);
    } else {
      Growth.GrowsReflexive(w.core);
    }
    ExpiredStays(w, w');
  }

  lemma ExpiredStays(w: World, w': World)
    requires ExpiredOnStream(w) && Growth.Grows(w.core, w'.core)
    requires forall e | e in w'.streams.expirations && e !in w.streams.expirations ::
               e.ExpirationComplete? && e.orderId in w.core.orders.orders
                 && w.core.orders.orders[e.orderId].expiresAt <= w.core.now
    ensures ExpiredOnStream(w')
  {
    forall e | e in w'.streams.expirations
      ensures e.ExpirationComplete? && e.orderId in w'.core.orders.orders
              && w'.core.orders.orders[e.orderId].expiresAt <= w'.core.now
    {
      assert Growth.OrderGrows(w.core.orders.orders[e.orderId], w'.core.orders.orders[e.orderId]);
    }
  }

  /** The step of the databases in a happening, if there is one. */
  lemma DueStepOf(w: World, a: Happening) returns (s: Option<Step>)
    requires ExpiredOnStream(w)
    ensures s.None? ==> Progress(w, a).core == w.core
    ensures s.Some? ==> Progress(w, a).core == Saga.Next(w.core, s.value) && Due(w.core, s.value)
  {
    hide Saga.Next, Enabled, Settle, Answer;
    s := None;
    if Possible(w, a) {
      if a.Local? {
        s := Some(a.step);
      } else if a.Deliver? && a.fault != BeforeCommit {
        s := Some(Handle(ServiceOf(a.d), Stream(w.streams, SourceOf(a.d))[a.pos], a.eventId));
      }
    }
  }

  lemma {:induction false} AllDueSnoc(c: Core, steps: seq<Step>, s: Step)
    requires AllDue(c, steps) && Due(Exec(c, steps), s)
    ensures AllDue(c, steps + [s]) && Exec(c, steps + [s]) == Saga.Next(Exec(c, steps), s)
  {
    hide Saga.Next, Due;
    var longer := steps + [s];
    assert longer[..|steps|] == steps;
    forall i | 0 <= i < |longer|
      ensures Due(Exec(c, longer[..i]), longer[i])
    {
      assert i < |steps| ==> longer[..i] == steps[..i];
    }
  }

  /** Conversely the databases of every run of the world are those of a run of the Saga machine
      whose expirations are due: no order is ever expired early. */
  lemma {:induction false} CourseIsADueRun(now: int, hs: seq<Happening>) returns (steps: seq<Step>)
    ensures Exec(Initial(now), steps) == Course(now, hs).core && AllDue(Initial(now), steps)
    ensures ExpiredOnStream(Course(now, hs))
  {
    hide Progress, Saga.Next, Due, ExpiredOnStream;
    steps := [];
    if hs == [] {
      StartsAlike(now);
      StartsUnexpired(now);
    } else {
      var w := Course(now, hs[..|hs| - 1]);
      var before := CourseIsADueRun(now, hs[..|hs| - 1]);
      ProgressKeepsExpired(w, hs[|hs| - 1]);
      var s := DueStepOf(w, hs[|hs| - 1]);
      if s.Some? {
        AllDueSnoc(Initial(now), before, s.value);
        steps := before + [s.value];
      } else {
        steps := before;
      }
    }
  }

  lemma StartsUnexpired(now: int)
    ensures ExpiredOnStream(Start(now))
  {
  }
}
