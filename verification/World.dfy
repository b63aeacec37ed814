/** The saga with everything between the databases: outboxes, JetStream streams, durable
    consumers with their redeliveries, dead letter queues and replays.  Every step is a step of
    the Saga machine or leaves the databases alone, so the Saga theorems hold here; what is
    new is that no event gets lost on the way. */
module World {
  import opened Events
  import opened Saga
  import opened Invariants
  import opened Consumers
  import Tickets
  import Orders
  import Payments
  import PaymentSteps
  import Growth
  import Money

  datatype Source = TicketStream | OrderStream | PaymentStream | ExpirationStream

  datatype Streams = Streams(tickets: seq<Event>, orders: seq<Event>, payments: seq<Event>, expirations: seq<Event>)

  /** `published` are the outbox rows with a published_at, by position in the log; `acked`,
      `parked` and `tries` are kept per durable and stream position. */
  datatype World = World(core: Core, streams: Streams, published: set<(Source, nat)>,
                         acked: set<(Durable, nat)>, parked: set<(Durable, nat)>, tries: map<(Durable, nat), nat>)

  function Start(now: int): World {
    World(Initial(now), Streams([], [], [], []), {}, {}, {}, map[])
  }

  function Log(c: Core, src: Source): seq<Event> {
    match src
    case TicketStream => c.tickets.outbox
    case OrderStream => c.orders.outbox
    case PaymentStream => c.payments.outbox
    case ExpirationStream => []
  }

  function Stream(s: Streams, src: Source): seq<Event> {
    match src
    case TicketStream => s.tickets
    case OrderStream => s.orders
    case PaymentStream => s.payments
    case ExpirationStream => s.expirations
  }

  function Append(s: Streams, src: Source, e: Event): Streams {
    match src
    case TicketStream => s.(tickets := s.tickets + [e])
    case OrderStream => s.(orders := s.orders + [e])
    case PaymentStream => s.(payments := s.payments + [e])
    case ExpirationStream => s.(expirations := s.expirations + [e])
  }

  /** The stream a durable is bound to. */
  function SourceOf(d: Durable): Source {
    match d
    case OrdersTicketProjection => TicketStream
    case OrdersPaymentCreated => PaymentStream
    case OrdersPaymentSucceeded => PaymentStream
    case OrdersPaymentFailed => PaymentStream
    case OrdersExpirationComplete => ExpirationStream
    case TicketsOrderReservation => OrderStream
    case TicketsOrderCancellation => OrderStream
    case PaymentsOrderProjection => OrderStream
  }

  /** Its filter subject. */
  predicate Subscribed(d: Durable, e: Event) {
    match d
    case OrdersTicketProjection => e.Ticket?()
    case OrdersPaymentCreated => e.PaymentCreated?
    case OrdersPaymentSucceeded => e.PaymentSucceeded?
    case OrdersPaymentFailed => e.PaymentFailed?
    case OrdersExpirationComplete => e.ExpirationComplete?
    case TicketsOrderReservation => e.OrderCreated?
    case TicketsOrderCancellation => e.OrderCanceled?
    case PaymentsOrderProjection => e.Order?()
  }

  function ServiceOf(d: Durable): Service {
    match d
    case TicketsOrderReservation => AtTickets
    case TicketsOrderCancellation => AtTickets
    case PaymentsOrderProjection => AtPayments
    case _ => AtOrders
  }

  /** A failure of the infrastructure around a handler: the transaction did not commit, or it
      did and the answer got lost.  Either way the consumer sees an error. */
  datatype Fault = NoFault | BeforeCommit | AfterCommit

  datatype Happening =
    | Local(step: Step)
    | Accept(src: Source, row: nat, duplicate: bool)
    | MarkPublished(src: Source, row: nat)
    | Expire(order: Uuid)
    | Deliver(d: Durable, pos: nat, fault: Fault, dlqWorks: bool, ackWorks: bool, eventId: Uuid)
    | Replay(d: Durable, pos: nat)

  /** What the handler of a delivery returns. */
  function Answer(c: Core, at: Service, e: Event, eventId: Uuid): Result<()> {
    match at
    case AtTickets => Tickets.Handle(c.tickets, e, eventId).Result()
    case AtOrders => Orders.Handle(c.orders, e, eventId).Result()
    case AtPayments => Payments.Handle(c.payments, e).Result()
  }

  function Tries(w: World, d: Durable, pos: nat): nat {
    if (d, pos) in w.tries then w.tries[(d, pos)] else 0
  }

  ghost predicate Possible(w: World, a: Happening) {
    match a
    case Local(step) => !step.Handle? && Enabled(w.core, step)
    case Accept(src, row, duplicate) =>
      // the broker drops a duplicate only if it has the message
      row < |Log(w.core, src)| && (duplicate ==> Log(w.core, src)[row] in Stream(w.streams, src))
    case MarkPublished(src, row) =>
      row < |Log(w.core, src)| && Log(w.core, src)[row] in Stream(w.streams, src)
    case Expire(order) =>
      order in w.core.orders.orders && HasCreated(w.streams.orders, order)
        && w.core.orders.orders[order].expiresAt <= w.core.now
    case Deliver(d, pos, _, _, _, eventId) =>
      && pos < |Stream(w.streams, SourceOf(d))| && Subscribed(d, Stream(w.streams, SourceOf(d))[pos])
      && (d, pos) !in w.acked
      && Enabled(w.core, Handle(ServiceOf(d), Stream(w.streams, SourceOf(d))[pos], eventId))
    case Replay(d, pos) => (d, pos) in w.parked && pos < |Stream(w.streams, SourceOf(d))|
  }

  ghost function Act(w: World, a: Happening): World
    requires Possible(w, a)
  {
    match a
    case Local(step) => w.(core := Saga.Next(w.core, step))
    case Accept(src, row, duplicate) =>
      if duplicate then w else w.(streams := Append(w.streams, src, Log(w.core, src)[row]))
    case MarkPublished(src, row) => w.(published := w.published + {(src, row)})
    case Expire(order) => w.(streams := Append(w.streams, ExpirationStream, ExpirationComplete(order, order)))
    case Deliver(d, pos, fault, dlqWorks, ackWorks, eventId) =>
      var e := Stream(w.streams, SourceOf(d))[pos];
      var count := Tries(w, d, pos) + 1;
      var answer := if fault == NoFault then Answer(w.core, ServiceOf(d), e, eventId) else Failed(Unavailable);
      var s := Settle(d, answer, count, dlqWorks, ackWorks);
      w.(core := if fault == BeforeCommit then w.core else Saga.Next(w.core, Handle(ServiceOf(d), e, eventId)),
         tries := w.tries[(d, pos) := count],
         acked := if s.acked then w.acked + {(d, pos)} else w.acked,
         parked := if s.parked then w.parked + {(d, pos)} else w.parked)
    case Replay(d, pos) =>
      w.(streams := Append(w.streams, SourceOf(d), Stream(w.streams, SourceOf(d))[pos]))
  }

  /** What is not possible does not happen, so every sequence of happenings is a run. */
  ghost function Progress(w: World, a: Happening): World {
    if Possible(w, a) then Act(w, a) else w
  }

  ghost function Course(now: int, hs: seq<Happening>): World {
    if hs == [] then Start(now) else Progress(Course(now, hs[..|hs| - 1]), hs[|hs| - 1])
  }

  // ----- The databases run the Saga machine -----

  /** A happening is one step of the Saga machine or none. */
  lemma ProgressIsSagaStep(w: World, a: Happening)
    ensures Progress(w, a).core == w.core || exists s :: Progress(w, a).core == Saga.Next(w.core, s)
  {
    hide Enabled, Saga.Next, Settle, Answer;
    if Possible(w, a) {
      match a {
        case Local(step) =>
          assert Progress(w, a).core == Saga.Next(w.core, step);
        case Deliver(d, pos, _, _, _, eventId) =>
          var s := Handle(ServiceOf(d), Stream(w.streams, SourceOf(d))[pos], eventId);
          assert Progress(w, a).core == w.core || Progress(w, a).core == Saga.Next(w.core, s);
        case _ =>
      }
    }
  }

  lemma StepKeepsReachable(c: Core, s: Step)
    requires Reachable(c)
    ensures Reachable(Saga.Next(c, s))
  {
    hide Saga.Next;
    assert [s][..0] == [] && [s][0] == s;
    assert Exec(c, [s]) == Saga.Next(c, s);
    ReachableExec(c, [s]);
  }

  /** The databases of every run of the world are in a reachable state of the Saga machine. */
  lemma {:induction false} CourseIsReachable(now: int, hs: seq<Happening>)
    ensures Reachable(Course(now, hs).core)
  {
    hide Progress, Saga.Next, Reachable;
    if hs == [] {
      StartIsReachable(now);
    } else {
      var before := Course(now, hs[..|hs| - 1]);
      CourseIsReachable(now, hs[..|hs| - 1]);
      ProgressIsSagaStep(before, hs[|hs| - 1]);
      if Course(now, hs).core != before.core {
        var s :| Course(now, hs).core == Saga.Next(before.core, s);
        StepKeepsReachable(before.core, s);
      }
    }
  }

  /** Continued, a course only grows the databases. */
  lemma {:induction false} CourseGrows(now: int, hs: seq<Happening>, more: seq<Happening>)
    ensures Growth.Grows(Course(now, hs).core, Course(now, hs + more).core)
  {
    hide Progress, Saga.Next, Growth.Grows;
    if more == [] {
      assert hs + more == hs;
      Growth.GrowsReflexive(Course(now, hs).core);
    } else {
      var front := more[..|more| - 1];
      assert (hs + more)[..|hs + more| - 1] == hs + front;
      CourseGrows(now, hs, front);
      var w := Course(now, hs + front);
      ProgressGrows(w, more[|more| - 1]);
      Growth.GrowsTransitive(Course(now, hs).core, w.core, Course(now, hs + more).core);
    }
  }

  lemma ProgressGrows(w: World, a: Happening)
    ensures Growth.Grows(w.core, Progress(w, a).core)
  {
    hide Progress, Saga.Next, Growth.Grows;
    ProgressIsSagaStep(w, a);
    Growth.GrowsReflexive(w.core);
    if Progress(w, a).core != w.core {
      var s :| Progress(w, a).core == Saga.Next(w.core, s);
      Growth.NextGrows(w.core, s);
    }
  }

  lemma StartIsReachable(now: int)
    ensures Reachable(Start(now).core)
  {
    var none: seq<Step> := [];
    assert Exec(Initial(now), none) == Initial(now);
  }

  // ----- The transport invariant -----

  /** A stream carries only events its service has committed. */
  ghost predicate Genuine(c: Core, src: Source, e: Event) {
    if src == ExpirationStream then e.ExpirationComplete? && e.eventId == e.orderId && e.orderId in c.orders.orders
    else e in Log(c, src)
  }

  ghost predicate Handled(w: World, d: Durable, pos: nat)
    requires pos < |Stream(w.streams, SourceOf(d))|
  {
    Stream(w.streams, SourceOf(d))[pos].eventId in Processed(w.core, ServiceOf(d))
  }

  ghost predicate Transport(w: World) {
    && (forall src, i | 0 <= i < |Stream(w.streams, src)| :: Genuine(w.core, src, Stream(w.streams, src)[i]))
    && (forall src, i | (src, i) in w.published ::
        i < |Log(w.core, src)| && Log(w.core, src)[i] in Stream(w.streams, src))
    && (forall d, pos | (d, pos) in w.acked ::
        pos < |Stream(w.streams, SourceOf(d))| && (Handled(w, d, pos) || (d, pos) in w.parked))
    && (forall d, pos | (d, pos) in w.parked ::
          pos < |Stream(w.streams, SourceOf(d))| && Subscribed(d, Stream(w.streams, SourceOf(d))[pos])
            && Tries(w, d, pos) >= MAX_RETRIES + 1)
  }

  /** From `w` to `w'` logs and streams grow, processed ids grow, nothing is unparked. */
  ghost predicate Later(w: World, w': World) {
    && Growth.Grows(w.core, w'.core)
    && (forall src :: Stream(w.streams, src) <= Stream(w'.streams, src))
    && w.parked <= w'.parked
    && (forall d, pos :: Tries(w, d, pos) <= Tries(w', d, pos))
  }

  lemma LogGrows(c: Core, c': Core, src: Source)
    requires Growth.Grows(c, c')
    ensures Log(c, src) <= Log(c', src)
  {
  }

  lemma GenuineStays(c: Core, c': Core, src: Source, e: Event)
    requires Growth.Grows(c, c') && Genuine(c, src, e)
    ensures Genuine(c', src, e)
  {
    LogGrows(c, c', src);
  }

  /** Whatever a transport fact says of `w` still holds of a later world with the same sets. */
  lemma TransportLater(w: World, w': World)
    requires Transport(w) && Later(w, w')
    requires w'.published == w.published && w'.acked == w.acked && w'.parked == w.parked
    requires forall src, i | |Stream(w.streams, src)| <= i < |Stream(w'.streams, src)| ::
             Genuine(w'.core, src, Stream(w'.streams, src)[i])
    ensures Transport(w')
  {
    forall src, i | 0 <= i < |Stream(w'.streams, src)|
      ensures Genuine(w'.core, src, Stream(w'.streams, src)[i])
    {
      if i < |Stream(w.streams, src)| {
        GenuineStays(w.core, w'.core, src, Stream(w.streams, src)[i]);
      }
    }
    forall src, i | (src, i) in w.published
      ensures i < |Log(w'.core, src)| && Log(w'.core, src)[i] in Stream(w'.streams, src)
    {
      LogGrows(w.core, w'.core, src);
      assert Log(w.core, src)[i] in Stream(w.streams, src);
    }
    forall d, pos | (d, pos) in w.acked && Handled(w, d, pos)
      ensures Handled(w', d, pos)
    {
      Growth.ProcessedGrows(w.core, w'.core, ServiceOf(d));
    }
  }

  // ----- Every happening keeps it -----

  lemma LocalTransport(w: World, step: Step)
    requires Transport(w)
    ensures Transport(w.(core := Saga.Next(w.core, step)))
  {
    hide Saga.Next, Growth.Grows, Transport;
    Growth.NextGrows(w.core, step);
    TransportLater(w, w.(core := Saga.Next(w.core, step)));
  }

  lemma AppendTransport(w: World, src: Source, e: Event)
    requires Transport(w) && Genuine(w.core, src, e)
    ensures Transport(w.(streams := Append(w.streams, src, e)))
  {
    hide Growth.Grows, Transport;
    Growth.GrowsReflexive(w.core);
    TransportLater(w, w.(streams := Append(w.streams, src, e)));
  }

  lemma MarkTransport(w: World, src: Source, row: nat)
    requires Transport(w) && row < |Log(w.core, src)| && Log(w.core, src)[row] in Stream(w.streams, src)
    ensures Transport(w.(published := w.published + {(src, row)}))
  {
    var w' := w.(published := w.published + {(src, row)});
    forall d, pos | (d, pos) in w.acked && Handled(w, d, pos)
      ensures Handled(w', d, pos)
    {
    }
  }

  /** A handler that succeeded has recorded the event. */
  lemma SuccessRecords(c: Core, at: Service, e: Event, eventId: Uuid)
    requires Enabled(c, Handle(at, e, eventId)) && Answer(c, at, e, eventId).Success?
    ensures e.eventId in Processed(Saga.Next(c, Handle(at, e, eventId)), at)
  {
  }

  lemma TicketsAnswerIsValid(t: Tickets.Db, e: Event, eventId: Uuid)
    requires ValidOrderEvent(e) && Tickets.Handle(t, e, eventId).RolledBack?
    ensures Tickets.Handle(t, e, eventId).failure !in {InvalidEvent, UnsupportedSubject}
  {
  }

  lemma OrdersAnswerIsValid(o: Orders.Db, e: Event, eventId: Uuid)
    requires (ValidTicketEvent(e) || e.Payment?() || e.ExpirationComplete?) && Orders.Handle(o, e, eventId).RolledBack?
    ensures Orders.Handle(o, e, eventId).failure !in {InvalidEvent, UnsupportedSubject}
  {
  }

  lemma PaymentsAnswerIsValid(p: Payments.Db, e: Event)
    requires ValidOrderEvent(e) && Payments.Handle(p, e).RolledBack?
    ensures Payments.Handle(p, e).failure !in {InvalidEvent, UnsupportedSubject}
  {
  }

  /** No service emits an event that its consumers would call invalid. */
  lemma GenuineIsNeverInvalid(c: Core, d: Durable, e: Event, eventId: Uuid)
    requires Reachable(c) && Genuine(c, SourceOf(d), e) && Subscribed(d, e)
    ensures var answer := Answer(c, ServiceOf(d), e, eventId);
            answer.Failed? ==> ClassOf(d, answer.failure) != ClassInvalid
  {
    hide Tickets.Handle, Orders.Handle, Payments.Handle, ValidTicketEvent, ValidOrderEvent;
    GenuineIsValid(c, d, e);
    if Answer(c, ServiceOf(d), e, eventId).Failed? {
      match ServiceOf(d) {
        case AtTickets => TicketsAnswerIsValid(c.tickets, e, eventId);
        case AtOrders => OrdersAnswerIsValid(c.orders, e, eventId);
        case AtPayments => PaymentsAnswerIsValid(c.payments, e);
      }
    }
  }

  lemma GenuineIsValid(c: Core, d: Durable, e: Event)
    requires Reachable(c) && Genuine(c, SourceOf(d), e) && Subscribed(d, e)
    ensures match ServiceOf(d)
            case AtTickets => ValidOrderEvent(e)
            case AtOrders => ValidTicketEvent(e) || e.Payment?() || e.ExpirationComplete?
            case AtPayments => ValidOrderEvent(e)
  {
    PaymentSteps.ReachableInv(c);
    if SourceOf(d) == OrderStream {
      assert TrueOrderEvent(c.orders.orders, e);
    }
  }

  lemma DeliverTransport(w: World, a: Happening)
    requires Transport(w) && Reachable(w.core) && a.Deliver? && Possible(w, a)
    ensures Transport(Act(w, a))
  {
    hide Reachable, Saga.Next, Growth.Grows, Answer, Enabled, Settle;
    var w' := Act(w, a);
    var e := Stream(w.streams, SourceOf(a.d))[a.pos];
    var step := Handle(ServiceOf(a.d), e, a.eventId);
    var count := Tries(w, a.d, a.pos) + 1;
    var answer := if a.fault == NoFault then Answer(w.core, ServiceOf(a.d), e, a.eventId) else Failed(Unavailable);
    Growth.GrowsReflexive(w.core);
    Growth.NextGrows(w.core, step);
    assert Genuine(w.core, SourceOf(a.d), e);
    GenuineIsNeverInvalid(w.core, a.d, e, a.eventId);
    if Settle(a.d, answer, count, a.dlqWorks, a.ackWorks).acked {
      SettledIsHandledOrParked(a.d, answer, count, a.dlqWorks, a.ackWorks);
    }
    if answer.Success? {
      SuccessRecords(w.core, ServiceOf(a.d), e, a.eventId);
    }
    if Settle(a.d, answer, count, a.dlqWorks, a.ackWorks).parked {
      ParkedIsAFailure(a.d, answer, count, a.dlqWorks, a.ackWorks);
      ParkedAfterRetries(a.d, answer.failure, count, a.dlqWorks, a.ackWorks);
    }
    DeliverBookkeeping(w, w', a.d, a.pos);
  }

  /** The sets of a delivery change by that delivery only. */
  lemma DeliverBookkeeping(w: World, w': World, d: Durable, pos: nat)
    requires Transport(w) && Growth.Grows(w.core, w'.core)
    requires w'.streams == w.streams && w'.published == w.published
    requires w.acked <= w'.acked <= w.acked + {(d, pos)} && w.parked <= w'.parked <= w.parked + {(d, pos)}
    requires w'.tries == w.tries[(d, pos) := Tries(w, d, pos) + 1]
    requires pos < |Stream(w.streams, SourceOf(d))| && Subscribed(d, Stream(w.streams, SourceOf(d))[pos])
    requires (d, pos) !in w.acked
    requires (d, pos) in w'.acked ==> Handled(w', d, pos) || (d, pos) in w'.parked
    requires (d, pos) in w'.parked && (d, pos) !in w.parked ==> Tries(w', d, pos) >= MAX_RETRIES + 1
    ensures Transport(w')
  {
    hide Growth.Grows, Transport;
    var w1 := w.(core := w'.core, tries := w'.tries);
    TransportLater(w, w1);
    DeliverSets(w1, w', d, pos);
  }

  lemma DeliverSets(w: World, w': World, d: Durable, pos: nat)
    requires Transport(w) && w' == w.(acked := w'.acked, parked := w'.parked)
    requires w.acked <= w'.acked <= w.acked + {(d, pos)} && w.parked <= w'.parked <= w.parked + {(d, pos)}
    requires pos < |Stream(w.streams, SourceOf(d))| && Subscribed(d, Stream(w.streams, SourceOf(d))[pos])
    requires (d, pos) in w'.acked && (d, pos) !in w.acked ==> Handled(w', d, pos) || (d, pos) in w'.parked
    requires (d, pos) in w'.parked && (d, pos) !in w.parked ==> Tries(w', d, pos) >= MAX_RETRIES + 1
    ensures Transport(w')
  {
    forall x, p | (x, p) in w.acked && Handled(w, x, p)
      ensures Handled(w', x, p)
    {
    }
  }

  lemma ProgressTransport(w: World, a: Happening)
    requires Transport(w) && Reachable(w.core)
    ensures Transport(Progress(w, a))
  {
    hide Reachable, Saga.Next, Enabled, Settle, Answer;
    if Possible(w, a) {
      match a {
        case Local(step) => LocalTransport(w, step);
        case Accept(src, row, duplicate) =>
          if !duplicate {
            LoggedIsGenuine(w.core, src, row);
            AppendTransport(w, src, Log(w.core, src)[row]);
          }
        case MarkPublished(src, row) => MarkTransport(w, src, row);
        case Expire(order) => AppendTransport(w, ExpirationStream, ExpirationComplete(order, order));
        case Deliver(_, _, _, _, _, _) => DeliverTransport(w, a);
        case Replay(d, pos) => AppendTransport(w, SourceOf(d), Stream(w.streams, SourceOf(d))[pos]);
      }
    }
  }

  lemma LoggedIsGenuine(c: Core, src: Source, row: nat)
    requires row < |Log(c, src)|
    ensures Genuine(c, src, Log(c, src)[row])
  {
  }

  lemma {:induction false} CourseTransport(now: int, hs: seq<Happening>)
    ensures Transport(Course(now, hs))
  {
    hide Progress, Reachable, Transport;
    if hs == [] {
      StartTransport(now);
    } else {
      CourseTransport(now, hs[..|hs| - 1]);
      CourseIsReachable(now, hs[..|hs| - 1]);
      ProgressTransport(Course(now, hs[..|hs| - 1]), hs[|hs| - 1]);
    }
  }

  lemma StartTransport(now: int)
    ensures Transport(Start(now))
  {
  }

  // ----- What the world guarantees -----

  /** The copy of a message at `pos` is pending for `d`, or processed by its service, or parked. */
  ghost predicate Accounted(w: World, d: Durable, pos: nat)
    requires pos < |Stream(w.streams, SourceOf(d))|
  {
    (d, pos) !in w.acked || Handled(w, d, pos) || (d, pos) in w.parked
  }

  /** In every run, at every moment, an event committed with a state change is an unpublished
      outbox row, or it is on its stream; and every copy on the stream is, for every subscribed
      consumer, pending, processed there, or held in that consumer's dead letter queue. */
  lemma {:induction false} NoEventIsLost(now: int, hs: seq<Happening>, src: Source, row: nat, d: Durable)
    requires var w := Course(now, hs);
             row < |Log(w.core, src)| && SourceOf(d) == src && Subscribed(d, Log(w.core, src)[row])
    ensures var w := Course(now, hs); var e := Log(w.core, src)[row];
            && ((src, row) !in w.published
                || exists pos :: 0 <= pos < |Stream(w.streams, src)| && Stream(w.streams, src)[pos] == e)
            && forall pos | 0 <= pos < |Stream(w.streams, src)| && Stream(w.streams, src)[pos] == e ::
               Accounted(w, d, pos)
  {
    hide Reachable;
    CourseTransport(now, hs);
    var w := Course(now, hs);
    forall pos | 0 <= pos < |Stream(w.streams, src)| && Stream(w.streams, src)[pos] == Log(w.core, src)[row]
      ensures Accounted(w, d, pos)
    {
      assert (d, pos) in w.acked ==> Handled(w, d, pos) || (d, pos) in w.parked;
    }
    if (src, row) in w.published {
      assert Log(w.core, src)[row] in Stream(w.streams, src);
    }
  }

  /** Nothing a service emitted is parked before its sixth delivery, and only to its own consumer. */
  lemma {:induction false} ParkedOnlyAfterSixDeliveries(now: int, hs: seq<Happening>, d: Durable, pos: nat)
    requires (d, pos) in Course(now, hs).parked
    ensures var w := Course(now, hs);
            pos < |Stream(w.streams, SourceOf(d))| && Subscribed(d, Stream(w.streams, SourceOf(d))[pos])
              && Tries(w, d, pos) >= 6
  {
    hide Reachable;
    CourseTransport(now, hs);
  }

  /** With dead letter queue and acknowledgments working, the sixth delivery is the last. */
  lemma SixthDeliverySettles(w: World, a: Happening)
    requires a.Deliver? && Possible(w, a) && a.dlqWorks && a.ackWorks && Tries(w, a.d, a.pos) >= 5
    ensures (a.d, a.pos) in Progress(w, a).acked
  {
    hide Saga.Next, Enabled, Answer;
  }

  /** Whenever message `pos` is delivered to `d`, queue and acknowledgments work. */
  predicate WorksFor(hs: seq<Happening>, d: Durable, pos: nat) {
    forall i | 0 <= i < |hs| && hs[i].Deliver? && hs[i].d == d && hs[i].pos == pos :: hs[i].dlqWorks && hs[i].ackWorks
  }

  /** In every run in which queue and acknowledgments work for a message, it is delivered to each
      consumer at most six times, and after the sixth it is settled. */
  lemma {:induction false} ChainsSettleInEveryRun(now: int, hs: seq<Happening>, d: Durable, pos: nat)
    requires WorksFor(hs, d, pos)
    ensures Tries(Course(now, hs), d, pos) <= 6
    ensures Tries(Course(now, hs), d, pos) == 6 ==> (d, pos) in Course(now, hs).acked
  {
    hide Progress;
    if hs != [] {
      var w := Course(now, hs[..|hs| - 1]);
      ChainsSettleInEveryRun(now, hs[..|hs| - 1], d, pos);
      TriesStep(w, hs[|hs| - 1], d, pos);
    }
  }

  lemma TriesStep(w: World, a: Happening, d: Durable, pos: nat)
    requires a.Deliver? && a.d == d && a.pos == pos ==> a.dlqWorks && a.ackWorks
    requires Tries(w, d, pos) <= 6 && (Tries(w, d, pos) == 6 ==> (d, pos) in w.acked)
    ensures Tries(Progress(w, a), d, pos) <= 6
    ensures Tries(Progress(w, a), d, pos) == 6 ==> (d, pos) in Progress(w, a).acked
  {
    hide Saga.Next, Enabled, Answer, Settle;
    if a.Deliver? && Possible(w, a) && a.d == d && a.pos == pos && Tries(w, d, pos) == 5 {
      SixthDeliverySettles(w, a);
    }
  }

  /** A completed order was paid once, and no failure of its payment is anywhere: not in an
      outbox, not on a stream, not in a dead letter queue, whose letters are stream messages. */
  lemma PaidOnceEverywhere(now: int, hs: seq<Happening>, o: Uuid) returns (p: Uuid)
    requires var c := Course(now, hs).core; o in c.orders.orders && c.orders.orders[o].status == Complete
    ensures Money.PaidOnce(Course(now, hs).core, o, p)
    ensures forall src, i | 0 <= i < |Stream(Course(now, hs).streams, src)| ::
              var e := Stream(Course(now, hs).streams, src)[i]; !(e.PaymentFailed? && e.orderId == o)
  {
    hide Reachable, Course;
    var w := Course(now, hs);
    CourseIsReachable(now, hs);
    CourseTransport(now, hs);
    p := Money.CompleteIsPaidOnce(w.core, o);
    forall src, i | 0 <= i < |Stream(w.streams, src)|
      ensures !(Stream(w.streams, src)[i].PaymentFailed? && Stream(w.streams, src)[i].orderId == o)
    {
      assert Genuine(w.core, src, Stream(w.streams, src)[i]);
      FailureComesFromPayments(w.core, src, Stream(w.streams, src)[i]);
    }
  }

  lemma FailureComesFromPayments(c: Core, src: Source, e: Event)
    requires Reachable(c) && Genuine(c, src, e)
    ensures e.PaymentFailed? ==> e in c.payments.outbox
  {
    PaymentSteps.ReachableInv(c);
    assert e in c.orders.outbox ==> TrueOrderEvent(c.orders.orders, e);
  }
}
