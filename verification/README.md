# The ticket-sale saga, verified

Three services sell tickets together: Tickets owns the tickets, Orders reserves them, Payments
takes the money. They share no database and call each other for nothing but events. Each
repository method is one database transaction that writes its rows, the ids of the events it has
processed, and new events for its outbox. A publisher moves outbox rows to a JetStream stream;
durable consumers take them from there, with redelivery, reordering, dead letter queues and
replays in between. No function of any service contains the promise that a ticket is sold once,
to the user who paid for it, and that every copy of a row tells the truth. It has to follow from
idempotency records, version gates, conditional status updates and outbox inserts over every run.
This project models those parts and proves what follows, and what does not.

`dafny verify dfyconfig.toml` checks all of it.

## How the model is laid out

- `Events`, `Tickets`, `Orders`, `Payments`: the events, and each repository twice. A function
  gives the transaction on a value of the tables; a class with the tables as fields carries it
  out in place, rollback included, and is proved to have exactly that effect.
- `Saga`: the three databases side by side. A step is one transaction, triggered by a request, by
  the payment processor, or by the delivery of any committed event to any service at any time.
  What holds of all runs of this machine holds under every reordering, duplication, retry and
  replay.
- `Invariants`, `TicketSteps`, `OrderSteps`, `PaymentSteps`, `Growth`: the joint invariant and its
  preservation by every transaction; what only ever grows.
- `Requests`, `Deliveries`: every answer to a user's request and to a delivery, and its effect.
- `Reservations`, `Sales`, `Money`, `Prices`, `Lifecycle`, `Projections`, `Convergence`,
  `ExactlyOnce`: the guarantees.
- `Consumers`, `DeadLetters`, `Outbox`, `Publisher`, `Processor`: the delivery code itself, with
  its loops and its message and queue handles as classes.
- `World`, `Realization`: everything between the databases as one machine, which is proved to
  reach the databases of the Saga machine and, expirations being due, no others.
- `Dispatch`: the world with any number of publishers at work, step by step and interleaved.
- `Counterexamples`: runs that show where the guarantees end and that their hypotheses can be met.

## Assumptions

- Each repository method is atomic. Row locks, `ON CONFLICT` and unique indexes make the
  transactions of one service serializable here, except that a reservation reads the clock when
  its transaction starts: its `txNow` may be earlier than the time of its commit.
- Generated UUIDs are new. The Expiration service reuses the order id as event id
  (apps/expiration/src/expiration/expiration.publisher.ts:13-25), so its redeliveries are
  duplicates to Orders.
- Versions start at 0 and payments start Pending, as the migrations say
  (apps/orders/migrations/000004_add_order_aggregate_version.up.sql:2,
  apps/payments/migrations/000003_add_payment_status.up.sql:8).
- Where SQL leaves the row open (equal ranks, rows that others lock) the picked row, or the set of
  locked rows, is a parameter and the theorems hold for every value of it.
- The broker forgets nothing: the seven-day retention of the streams would void the no-loss
  theorem. It drops a message as a duplicate only if it has it. Headers are a map from key to
  values with case-sensitive get and set; nats.go is not part of this model.
- The expiration clock and the clock of Orders agree: an expiration is published when the order's
  expiry has passed there.

## Where the code and its documentation disagree

The design document at the root of the repository promises two things that the code does not do.
The model follows the code.

- A cancellation is said to advance the projection of Payments to Canceled. A cancellation of an
  order that Orders had moved to AwaitingPayment carries version 2, version 1 was never announced,
  and Payments sees a gap for ever (`Money.VersionTwoCancellationIsLost`). It does no harm to the
  ledger (`Money.StaleProjectionIsHarmless`), but a paid order can be canceled without Payments
  noticing (`Counterexamples.PaidOrderCanBeCanceledUnnoticed`).
- Complete is said to keep the ticket unavailable permanently. No order is created for a sold
  ticket (`Reservations.NoOrderAfterSale`), yet a success that arrives after its order expired, and
  after the ticket was ordered again, makes a second Complete order
  (`Counterexamples.LateSuccessSellsTwice`, and in the whole world
  `Counterexamples.SomeCourseSellsTwice`). A ticket is sold at most once if and only if at each
  completion it had no Complete order yet (`Sales.SoldOnceIffGuarded`). It is kept unavailable, so
  that a paid order and a live one never stand side by side, if and only if at each completion
  nothing else blocked it (`Sales.SoleIffGuarded`).

## Model

| member | source | states |
|---|---|---|
| Orders.Repository.FindBlockingOrder | apps/orders/internal/order/postgres_repository.go:130-159 | Returns an order of the ticket that is Complete or live at the transaction's time and that no other such order outranks (Complete first, then latest expiry), or nothing exactly when there is none. |
| Orders.SomeOrderRanksFirst | apps/orders/internal/order/postgres_repository.go:141-142 | Every non-empty finite set of orders has one that none of the others outranks, so the ordered query always has a first row. |
| Orders.PickIsCompleteIfAnyIs | apps/orders/internal/order/postgres_repository.go:137-142 | If any order of the ticket is Complete, whichever row the database picks among equals is Complete. |
| Orders.Repository.Reserve | apps/orders/internal/order/postgres_repository.go:30-82 | Leaves exactly the tables and the answer of the specified transaction for the row that the blocking query picked; a refusal leaves the tables as they were. |
| Orders.Repository.UpdateStatus | apps/orders/internal/order/postgres_repository.go:230-237 | A conditional status update moves the row and adds one to its version exactly when the row exists with an eligible status, and otherwise changes nothing. |
| Orders.Repository.CancelForUser | apps/orders/internal/order/postgres_repository.go:217-291 | Effect and answer of the cancellation transaction in all four cases: canceled now, canceled before, not found for this user, not cancelable. |
| Orders.Repository.ExpirationCompleted | apps/orders/internal/order/postgres_repository.go:296-353 | Effect of an expiration: recorded once, cancels a Created order with its event in the same transaction, leaves every other order alone. |
| Orders.Repository.PaymentWasCreated | apps/orders/internal/order/postgres_repository.go:355-389 | Effect of PaymentCreated: recorded once, moves a Created order to AwaitingPayment, emits nothing. |
| Orders.Repository.PaymentHasSucceeded | apps/orders/internal/order/postgres_repository.go:394-422 | Effect of PaymentSucceeded: recorded once, completes an order that is Created or AwaitingPayment, expired or not. |
| Orders.Repository.PaymentHasFailed | apps/orders/internal/order/postgres_repository.go:427-472 | Effect of PaymentFailed: recorded once, cancels an order that is Created or AwaitingPayment, with its event. |
| Orders.Repository.UpsertTicket | apps/orders/internal/order/postgres_repository.go:555-653 | Effect of a ticket event: applied at the next version only; an older version is recorded and ignored; a gap rolls everything back, the record of the event included. |
| Tickets.Repository.CreateRow | apps/tickets/internal/ticket/postgres_repository.go:27-67 | Effect of creating a ticket: version 0 with its TicketCreated event, or nothing at all. |
| Tickets.Repository.UpdateRow | apps/tickets/internal/ticket/postgres_repository.go:138-188 | Effect of an update: next version and TicketUpdated event for an unreserved ticket of this user, otherwise an error and no change. |
| Tickets.Repository.Reserve | apps/tickets/internal/ticket/postgres_repository.go:192-256 | Effect of OrderCreated: marker, next version and TicketUpdated event; a ticket marked by another order rolls the whole transaction back. |
| Tickets.Repository.Unreserve | apps/tickets/internal/ticket/postgres_repository.go:260-321 | Effect of OrderCanceled: releases only the marker of the same order; anything else is ReservationPending and rolled back. |
| Payments.Repository.CreatePayment | apps/payments/internal/payment/postgres_repository.go:28-91 | Effect of a payment request: the existing payment of the order comes first, then the status check, then a Pending payment with its event. |
| Payments.Repository.ResolveNext | apps/payments/internal/payment/postgres_repository.go:116-158 | Resolves the pending payment of least id that nobody else holds, with one result event; an unknown outcome rolls back. |
| Payments.SomeIdIsLeast | apps/payments/internal/payment/postgres_repository.go:121-131 | Every non-empty finite set of ids has a least one, so the ordered claim always has a row to return. |
| Payments.Repository.UpsertOrder | apps/payments/internal/payment/postgres_repository.go:206-255 | Effect of OrderCreated: the first event of an order makes the projected row; a gap rolls back together with the record of the event. |
| Payments.Repository.CancelOrder | apps/payments/internal/payment/postgres_repository.go:257-317 | Effect of OrderCanceled: an unknown order or a version more than one ahead is a gap and rolled back; an old version is recorded and ignored. |
| PaymentSteps.NextInv | apps/orders/internal/order/postgres_repository.go:27-472 | Every transaction of every service, on every delivery and request, keeps the joint invariant of the three databases (logs, identifiers, markers, projections, settlement, exclusiveness). |
| PaymentSteps.ReachableInv | apps/orders/internal/order/postgres_repository.go:27-472 | The joint invariant holds in every state that any sequence of requests, ticks and arbitrary deliveries reaches. |
| Growth.ExecGrows | apps/orders/internal/order/postgres_repository.go:217-472 | In every continuation logs and recorded ids only grow, orders and payments keep their identity, terminal rows keep everything, versions never fall, and one version never has two contents. |
| Reservations.MarkerIsTheHolder | apps/tickets/internal/ticket/postgres_repository.go:192-352 | In every reachable state a ticket is marked by order o if and only if Tickets has processed the creation of o, an order for that ticket, and not its cancellation; hence by at most one. |
| Reservations.CancellationWaitsForCreation | apps/tickets/internal/ticket/postgres_repository.go:260-321 | A cancellation not yet processed goes through if and only if the creation was processed before; otherwise it is ReservationPending. |
| Reservations.CreationWaitsForRelease | apps/tickets/internal/ticket/postgres_repository.go:192-256 | A creation not yet processed goes through if and only if no other order holds the ticket; otherwise it is refused as Reserved and stays unprocessed. |
| Reservations.ReservesAtMostOnce | apps/tickets/internal/ticket/postgres_repository.go:204-256 | In no run does an order mark a ticket a second time. |
| Reservations.ReleaseIsFinal | apps/tickets/internal/ticket/postgres_repository.go:260-321 | Once an order's mark was removed, no continuation brings it back; so an order is released at most once. |
| Reservations.SoldTicketIsFrozen | apps/tickets/internal/ticket/postgres_repository.go:138-321 | Once Tickets has processed the creation of an order that is Complete in Orders, the order and the whole row of its ticket (title, price, owner, version, marker) never change in any continuation. |
| Reservations.OneLiveOrderPerTicket | apps/orders/internal/order/postgres_repository.go:130-159 | At every clock value of every run a ticket has at most one unexpired order that is Created or AwaitingPayment. |
| Reservations.NoOrderAfterSale | apps/orders/internal/order/postgres_repository.go:55-81 | No step of any kind creates an order for a ticket that has a Complete order. |
| Reservations.ReservationIsDetermined | apps/orders/internal/order/postgres_repository.go:30-82 | Every answer to a reservation, for a transaction begun at any time and whichever row the database picks: no user, unknown ticket, sold (to everyone, its owner included), the last standing order to expire handed back to its user and refused to others, or a new order with its event at the price Orders knows. |
| Reservations.LiveOrderDecides | apps/orders/internal/order/postgres_repository.go:130-159 | In every reachable state an order that is live now is that last one, however early the transaction began; the pick matters only among orders that expired together while the transaction waited. |
| Requests.TicketIsKnownIffProcessed | apps/orders/internal/order/postgres_repository.go:37-50 | A reservation finds a ticket if and only if Orders has processed an event of it. |
| Requests.CancellationAnswers | apps/orders/internal/order/postgres_repository.go:217-291 | Every answer to a cancellation in a reachable state, with row, version and event: canceled now, canceled before, not cancelable once Complete, not found for anyone but its user. |
| Requests.TicketCreationAnswers | apps/tickets/internal/ticket/postgres_repository.go:27-67 | Every answer to a ticket creation: for offerable fields exactly the requested row at version 0 and the event that shows it, else an error and no change. |
| Requests.TicketUpdateAnswers | apps/tickets/internal/ticket/postgres_repository.go:138-188 | An update by the seller of a ticket that no order is on gives it exactly the requested title and price at the next version, and says so in the log; reserved means that some order's creation was processed and its cancellation not; every other request changes nothing. |
| Requests.OnlyRequestsChangeTheOffer | apps/tickets/internal/ticket/postgres_repository.go:163-166 | Nothing but a request of the seller changes a ticket's title or price, and no step of any service changes its seller. |
| Requests.OfferIsTheLastRequest | apps/tickets/internal/ticket/postgres_repository.go:138-188 | In every run the offer of a ticket is exactly that of one creation or update request, and stood from then on. |
| Requests.PaymentRequestAnswers | apps/payments/internal/payment/postgres_repository.go:28-91 | Every answer to a payment request, told from the events: not found for all but the order's user and before Payments processed its creation; the existing payment, whatever became of it; not payable once the cancellation was processed; else a new Pending payment with its event. |
| Requests.FateOfAPayment | apps/payments/internal/payment/postgres_repository.go:116-202 | A payment settled as failed stays failed and its order is never Complete; one settled as succeeded stays so and no failure is ever announced for its order; in every continuation. |
| Payments.ResolutionTellsTheOutcome | apps/payments/internal/payment/postgres_repository.go:116-202 | Resolving with a success leaves Succeeded and appends PaymentSucceeded, with a failure leaves Failed and appends PaymentFailed, each for the picked payment and its order; an unknown outcome is refused and nothing to pick changes nothing. |
| Sales.SoldOnceIffGuarded | apps/orders/internal/order/postgres_repository.go:394-422 | A run ends with at most one Complete order per ticket if and only if at each completion the ticket had no Complete order yet, a question the code does not ask: the exact condition for unique sale. |
| Sales.SoldOnceThroughout | apps/orders/internal/order/postgres_repository.go:394-422 | A ticket sold twice stays so: at most one Complete order at the end means at most one at every moment. |
| Sales.SoleIffGuarded | apps/orders/internal/order/postgres_repository.go:394-422 | A run keeps at most one paid or live order per ticket at every moment if and only if nothing else blocked the ticket at each completion: the exact condition for keeping a ticket unavailable. |
| Sales.GuardedIsSaleGuarded | apps/orders/internal/order/postgres_repository.go:130-159 | The second condition contains the first: asking what findBlockingOrder asks before each completion would also make sales unique. |
| Sales.TimelySalesAreUnique | apps/orders/internal/order/postgres_repository.go:413-417 | In every run in which each success is applied before its order expires, a ticket has at most one Complete order. |
| Money.CompleteIsPaidOnce | apps/orders/internal/order/postgres_repository.go:394-422 | A Complete order has exactly one payment, it Succeeded, and the log of Payments holds no PaymentFailed for the order. |
| Money.PaymentsAreMadeByOwners | apps/payments/internal/payment/postgres_repository.go:38-47 | In every run every payment was made by a request of the user that Orders names for its order, and the request is identified in the run. |
| Money.CompleteIsPaidOnceByOwner | apps/payments/internal/payment/postgres_repository.go:28-158 | In every run a Complete order was paid exactly once, successfully, and by its own user. |
| Money.LedgerBalances | apps/payments/internal/payment/postgres_repository.go:28-202 | PaymentCreated events name exactly the payments, result events exactly the settled ones and with their outcome, each once; an order has at most one payment. |
| Money.ProjectionIsSafe | apps/payments/internal/payment/postgres_repository.go:206-317 | Payments' copy of an order is absent, (0, Created) or (1, Canceled), with the order's user; the last only when Orders canceled it straight from Created. |
| Money.CancellationAppliesIffFromCreated | apps/payments/internal/payment/postgres_repository.go:257-317 | For an order Payments knows, an unprocessed cancellation is applied if and only if its version is 1; otherwise it is a version gap. |
| Money.VersionTwoCancellationIsLost | apps/payments/internal/payment/postgres_repository.go:306-317 | A cancellation of version 2 is never applied and never recorded by Payments, in any continuation. |
| Money.StaleProjectionIsHarmless | apps/payments/internal/payment/postgres_repository.go:51-74 | For an order canceled at version 2 no payment request changes Payments: the order has its one payment already. |
| Money.CanceledOrderIsPayableIffUnaware | apps/payments/internal/payment/postgres_repository.go:71-91 | A canceled order that Payments knows and that has no payment gets one if and only if Payments has not processed its cancellation. |
| Money.CanceledRowIffProcessed | apps/payments/internal/payment/postgres_repository.go:257-304 | Payments shows an order as Canceled if and only if it has processed a cancellation of it. |
| Prices.ChargedWhatWasAsked | apps/orders/internal/order/postgres_repository.go:84-113 | What Payments is to charge, and whom, is what the creation event of the order says, and the price is one its ticket had at a version Tickets committed. |
| Lifecycle.OrderEventsAreConserved | apps/orders/internal/order/postgres_repository.go:217-503 | Created means version 0, AwaitingPayment 1, Canceled and Complete 1 or 2; an order has one OrderCreated event, and one OrderCanceled event exactly when it is Canceled; each event agrees with the row. |
| Lifecycle.TerminalIsFinal | apps/orders/internal/order/postgres_repository.go:217-472 | A Canceled or Complete row is the same in every continuation. |
| Lifecycle.DeliveryAdvances | apps/orders/internal/order/postgres_repository.go:296-472 | Delivered to Orders in any reachable state, first or again, each payment event and expiration is accepted and recorded and moves its order as its kind says, with one OrderCanceled exactly if it cancels, and touches nothing else. |
| Lifecycle.ExpirationCancelsOnlyCreated | apps/orders/internal/order/postgres_repository.go:320-326 | An expiration cancels a Created order with one event, and leaves the orders and the log alone when its order is AwaitingPayment, Canceled or Complete. |
| Lifecycle.StepAdvances | apps/orders/internal/order/postgres_repository.go:217-472 | What any step of any service does to an order: what its act on the order says if it has one, and otherwise nothing. |
| Lifecycle.SettlementIsDecidedByFirstEligible | apps/orders/internal/order/postgres_repository.go:217-472 | From every reachable state with an active order, every run of all services, with any duplicates and interleavings, ends the order in the status of the first terminal act that is eligible on arrival, with one OrderCanceled exactly if it is Canceled. |
| Lifecycle.PaymentCreatedCommutes | apps/orders/internal/order/postgres_repository.go:355-389 | Without expirations, when and whether PaymentCreated arrives does not change the outcome. |
| Lifecycle.SettlementIsConfluent | apps/orders/internal/order/postgres_repository.go:355-472 | Any two runs from the same state without expirations of the order, in which the same result or cancellation comes first, agree on its outcome and on the number of OrderCanceled events. |
| Projections.TicketLogIsGapFree | apps/tickets/internal/ticket/postgres_repository.go:27-336 | At every moment a ticket at version v has exactly one event per version 0..v, in sequence order, and the event of version k shows the row as it was committed at version k. |
| Projections.ProjectionRefinesHistory | apps/orders/internal/order/postgres_repository.go:555-653 | Under any reordering, duplication, retry and replay Orders' row at version k is the k-th snapshot Tickets committed; k is never above the source and never falls. |
| Projections.DeliverOne | apps/orders/internal/order/postgres_repository.go:590-653 | A delivery of version k is applied exactly when versions 0..k-1 and no more are there, and is refused exactly when a version is missing. |
| Projections.PassAdvances | apps/orders/internal/order/postgres_repository.go:590-653 | Each pass over all events of a ticket, in any order and with any repetitions, applies at least the next missing version. |
| Projections.ProjectionConverges | apps/orders/internal/order/postgres_repository.go:555-653 | From every reachable state, v+1 passes over the events of a ticket at version v, each in any order, make Orders' row the row of Tickets. |
| Projections.ConvergedIsQuiet | apps/orders/internal/order/postgres_repository.go:566-600 | After convergence every event is accepted and changes no row. |
| Projections.SequenceOrderTakesOnePass | apps/orders/internal/order/postgres_repository.go:634-653 | In sequence order one pass is enough. |
| Projections.ReverseOrderTakesAllPasses | apps/orders/internal/order/postgres_repository.go:634-653 | In reverse order a pass advances by exactly one version, so the bound on the passes is tight. |
| Convergence.MarkerConverges | apps/tickets/internal/ticket/postgres_repository.go:192-352 | From every reachable state, as many passes over the order events of a ticket as are unprocessed, each in any order, leave it marked with an uncanceled order of its own, or unmarked if it has none. |
| Convergence.MarkerConvergesToTheOrder | apps/tickets/internal/ticket/postgres_repository.go:192-352 | With at most one uncanceled order, the marker ends on exactly that order. |
| Convergence.PaymentsConverge | apps/payments/internal/payment/postgres_repository.go:206-317 | From every reachable state, two passes over the order events, each in any order, make Payments show every order and no other, at the price and for the user of its creation, Canceled exactly for cancellations straight from Created. |
| ExactlyOnce.ExactlyOnceEffect | apps/orders/internal/order/postgres_repository.go:307-318 | Any run with duplicates, failed attempts and replays at all three services leaves the databases of the run that keeps only the first successful processing of each event by each service, in which no event is processed twice. |
| Consumers.Consumer.HandleDelivery | apps/orders/internal/consumer/ticket_consumer.go:115-152 | What one delivery does to the message handle and the dead letter queue: acknowledged, negatively acknowledged with the right delay, or parked and then acknowledged, with each failure of queue or acknowledgment. |
| Consumers.Consumer.Park | apps/orders/internal/consumer/ticket_consumer.go:165-188 | Parking acknowledges only after the dead letter is written; without a working queue the delivery is asked for again. |
| Consumers.ParkedAfterRetries | apps/tickets/internal/consumer/order_consumer.go:139-215 | An event that is not invalid is parked on its sixth delivery or later, in every consumer. |
| Deliveries.ParkedAtOnce | apps/orders/internal/consumer/ticket_consumer.go:115-135 | A failed delivery is parked if and only if the event is invalid, or of an unsupported subject at the four consumers that tell, or it is the sixth delivery or later. |
| Deliveries.RetriedLater | apps/tickets/internal/consumer/order_consumer.go:151-173 | Only a ticket event ahead of its predecessors and a cancellation ahead of its creation are asked for again with a delay, of 1, 2, 4, 8, 16 and of 1 second. |
| Deliveries.LabelledAs | apps/tickets/internal/consumer/order_consumer.go:207-215 | The failure class a dead letter is labelled with, for each consumer and failure. |
| Deliveries.MalformedIsParkedAtOnce | apps/orders/internal/projection/ticket_handler.go:41-60 | A malformed event is answered as invalid and settled in the dead letter queue at its first delivery, by every consumer of ticket and order events. |
| Events.BlankIsTrimmedAway | apps/orders/internal/projection/ticket_handler.go:47-52 | A title or user is refused as blank exactly if trimming leaves nothing of it. |
| Events.SpacesByCodePoint | apps/orders/internal/projection/ticket_handler.go:47-52 | What trimming removes, by code point. |
| Deliveries.OrdersAnswers | apps/orders/internal/projection/ticket_handler.go:22-60 | Every answer of Orders to a delivery, in any state: order events are unsupported, malformed ticket events invalid, ticket events more than one version ahead a version gap, and all others are accepted and recorded. |
| Deliveries.TicketsRefusals | apps/tickets/internal/projection/order_handler.go:22-77 | Tickets refuses exactly what is no order event as unsupported and malformed order events as invalid. |
| Deliveries.PaymentsAnswers | apps/payments/internal/projection/order_handler.go:24-76 | Payments accepts every emitted creation, first or again, and of the cancellations exactly those processed before and those of version 1 of orders it has heard of; the others are version gaps. |
| Consumers.ChainsSettle | apps/payments/internal/consumer/order_consumer.go:111-172 | With working queue and acknowledgments, a chain of deliveries settles after at most 6 minus the delivery count more, whatever the handler answers. |
| Consumers.VersionGapDelay | apps/orders/internal/consumer/ticket_consumer.go:154-163 | The looked-up delay of a version gap is one second doubled per earlier delivery, and sixteen seconds from the fifth delivery on. |
| World.CourseIsReachable | internal/outbox/publisher.go:97-130 | Outboxes, streams, durables, dead letter queues, replays and infrastructure faults drive the databases only through states of the saga machine. |
| World.GenuineIsNeverInvalid | apps/orders/internal/projection/ticket_handler.go:41-60 | No event a service emits is classed invalid by a consumer subscribed to it, so nothing genuine is parked at once. |
| World.NoEventIsLost | apps/orders/internal/consumer/ticket_consumer.go:115-188 | At every moment of every run an event committed with a state change is an unpublished outbox row or on its stream, and each copy on the stream is, for each subscribed consumer, pending, processed, or parked in that consumer's queue. |
| World.ParkedOnlyAfterSixDeliveries | apps/tickets/internal/consumer/order_consumer.go:139-205 | In every run a parked message belongs to the parking consumer's subscription and has been delivered to it at least six times. |
| World.SixthDeliverySettles | apps/payments/internal/consumer/order_consumer.go:111-162 | With queue and acknowledgment working, no message survives its sixth delivery unsettled. |
| World.ChainsSettleInEveryRun | apps/payments/internal/consumer/order_consumer.go:111-172 | In every run in which queue and acknowledgments work for a message, each consumer gets it at most six times, and the sixth settles it. |
| World.PaidOnceEverywhere | apps/orders/internal/order/postgres_repository.go:394-422 | In every run a Complete order was paid once, and a PaymentFailed for it is in no outbox, on no stream and so in no dead letter queue. |
| Realization.RunIsRealizable | internal/outbox/publisher.go:97-130 | Every run of the saga machine whose expirations are due is produced, table for table, by some run through outboxes, streams and durables. |
| Realization.CourseIsADueRun | apps/expiration/src/expiration/expiration.publisher.ts:13-25 | Conversely every run of the transport is a run of the saga machine in which no order is expired early. |
| Outbox.ClaimsFollowHistory | internal/outbox/postgres_repository.go:31-50 | In every run of inserts, claims and marks a claim takes only rows whose history lets them go (after the k-th failure 2, 4, 8, 16, 32, then 60 seconds later, after a claim more than 30 seconds, after a publication never), and passes over such a row only when full of lower ones. |
| Outbox.FailedRowRests | internal/outbox/postgres_repository.go:85-96 | No claim takes a row marked failed until the rest of that failure is over. |
| Outbox.ClaimIsUnique | internal/outbox/postgres_repository.go:31-50 | The claim of a publisher (at most limit eligible rows of lowest sequence that nobody else holds, ascending) is determined by the table, the time, the limit and the rows others hold. |
| Outbox.LeaseIsExclusive | internal/outbox/postgres_repository.go:34-43 | In every run of inserts, claims and marks, no claim takes a row while its lease is unexpired, unless the row was marked failed in between. |
| Outbox.LeaseEndsExactly | internal/outbox/postgres_repository.go:34-43 | The lease protects exactly that long: a claimed row that nobody marked is in the next claim that has room for it if and only if more than 30 seconds have passed. |
| Outbox.BackoffIsMonotoneAndBounded | internal/outbox/postgres_repository.go:91-93 | The delay after a failure never falls with the attempts, is at least 2 and at most 60 seconds, and is 60 exactly from the fifth earlier attempt on. |
| Outbox.UnpublishedBecomesClaimable | internal/outbox/postgres_repository.go:19-96 | In every run an unpublished row is claimable from 60 seconds after its last touch on. |
| Publisher.AcceptedIsRetriedInsideWindow | internal/outbox/publisher.go:106-130 | Whatever a pass does to a row it claimed, sent and did not mark published, the row is claimable from 65 seconds after the broker accepted the event on (5 s timeout plus backoff, or the lease), inside the 120 second window in which the broker drops duplicates. |
| Outbox.Repository.ClaimPending | internal/outbox/postgres_repository.go:19-75 | Returns the claim and locks exactly its rows until the lease ends. |
| Outbox.Repository.MarkRowPublished | internal/outbox/postgres_repository.go:77-83 | Marks one row published and clears lock and retry time. |
| Outbox.Repository.MarkRowFailed | internal/outbox/postgres_repository.go:85-96 | Counts the attempt, clears the lock and sets the retry time by the backoff of the earlier attempts. |
| Publisher.Publisher.PublishPending | internal/outbox/publisher.go:97-130 | The loop over the claimed batch leaves the table, the stream and the error of the specified pass, early exit included. |
| Publisher.PassPublishesPrefix | internal/outbox/publisher.go:106-130 | A pass marks published exactly the prefix of its batch up to the first trouble, marks the next row failed exactly if the broker did not acknowledge it and it could be marked, reports what went wrong there, has sent the events up to there and no others, and leaves the rest as claimed. |
| Publisher.PassKeepsPublishedOnStream | internal/outbox/publisher.go:112-126 | A row is marked published only if its event is on the stream, and a pass removes nothing from the stream. |
| Publisher.PassIsARunOfTheWorld | internal/outbox/publisher.go:97-130 | Every pass is a sequence of happenings of the world machine that leaves the databases alone. |
| Publisher.CourseContinuesByPass | internal/outbox/publisher.go:97-130 | Every course of the world machine can be continued by a whole pass, claim included, and shows the table and stream the pass leaves. |
| Dispatch.OperationIsACourse | internal/outbox/publisher.go:97-130 | Any number of publishers, their claims, sends and marks interleaved with each other and with everything else, leases expiring and publishers dying, drive the world machine; that only what is on the stream is marked published follows from the publisher's own memory. |
| Dispatch.NoEventIsLostByPublishers | internal/outbox/publisher.go:106-130 | In every such operation a committed event is in its outbox table and unpublished there or on its stream, and each copy on the stream is, for each subscribed consumer, pending, processed, or parked. |
| Dispatch.PublishPendingIsAnOperation | internal/outbox/publisher.go:97-130 | An undisturbed pass of publishPending is such an operation, with exactly the table and stream the pass computes. |
| Processor.Processor.ProcessOnce | apps/payments/internal/payment/processor.go:68-80 | One call settles the least pending payment that others do not hold, failed for one draw in ten or by the fixed outcome, or finds everything pending held by others, or fails; the last two change nothing. |
| Processor.Processor.ProcessPending | apps/payments/internal/payment/processor.go:82-110 | The drain loop settles one payment per call, in order of id among those others do not hold, each with the fate of its draw and the event that says so, changes nothing else, and says why it ended: interrupted, nothing left that others do not hold, or an error. |
| Processor.UndisturbedDrain | apps/payments/internal/payment/processor.go:82-110 | Without errors, interruption and other processors the loop makes exactly pending + 1 calls and leaves nothing pending. |
| DeadLetters.MessageIdsAreUnique | apps/orders/internal/consumer/dead_letter.go:94-112 | Two parked messages share a deduplication id only if they are the same message of the same stream. |
| DeadLetters.DeadLetterTells | apps/orders/internal/consumer/dead_letter.go:94-112 | A dead letter goes to the queue's subject with the original data under an id made of queue, stream and position, tells source, consumer, count and reason each under its own header, and keeps all other headers. |
| DeadLetters.DeadLettersAreTheirOwn | apps/orders/internal/consumer/dead_letter.go:94-112 | Two dead letters of a queue with the same message id are of the same message of the same stream. |
| DeadLetters.ReplayAnswers | apps/orders/internal/consumer/dead_letter.go:116-144 | Nothing is replayed but a message of the queue, and nowhere but to a consumed subject that the letter names. |
| DeadLetters.ReplayLeavesNothingOfTheQueue | apps/orders/internal/consumer/dead_letter.go:126-143 | A replayed message carries one message id, however the original spelled its own, and none of the queue's headers, an older release's included. |
| DeadLetters.DecimalReadsBack | apps/orders/internal/consumer/dead_letter.go:94-112 | Sequence numbers and counts are written in decimal digits that read back as the number. |
| DeadLetters.ParkThenReplay | apps/orders/internal/consumer/dead_letter.go:94-144 | Replaying a parked message restores subject, payload and exactly the headers that are neither dead letter headers nor a message id, and sets the replay id. |
| DeadLetters.CleanHeadersSurvive | apps/orders/internal/consumer/dead_letter.go:94-144 | For original headers free of dead letter keys nothing but the message id is lost, and no key is added. |
| DeadLetters.EveryServiceReplaysWhatItParked | apps/payments/internal/consumer/dead_letter.go:87-137 | At each of the three services, with its own subjects and header names, what was parked from a consumed subject comes back on it with its data and headers. |
| DeadLetters.DeadLetterer.CloneHeaders | apps/orders/internal/consumer/dead_letter.go:225-231 | The loop copies every header and adds none. |
| DeadLetters.DeadLetterer.Park | apps/orders/internal/consumer/dead_letter.go:94-112 | The published dead letter is the specified one. |
| DeadLetters.DeadLetterer.ReplayDeadLetter | apps/orders/internal/consumer/dead_letter.go:116-144 | The loop over the headers republishes the specified message, or refuses a message that is no dead letter or has no supported original subject. |
| DeadLetters.DeadLetterer.MergeSubjects | apps/orders/internal/consumer/dead_letter.go:55-92 | An existing stream is updated exactly when a dead letter subject is missing; the update keeps the configured subjects in front, has exactly the union, and has no duplicates if there were none. |
| Counterexamples.NewTicketBecomesFree | apps/tickets/internal/ticket/postgres_repository.go:27-67 | From every reachable state any valid ticket can be put on sale and reach Orders. |
| Counterexamples.FreeTicketCanBeBought | apps/orders/internal/order/postgres_repository.go:30-82 | From every reachable state in which a ticket is free, every user has a run to a Complete order of his own for it. |
| Counterexamples.LateSuccessSellsTwice | apps/orders/internal/order/postgres_repository.go:413-417 | Uniqueness needs its hypothesis: from every reachable state in which a ticket is free there is a run that ends with a Complete order of each of any two users, because a late success is still applied. |
| Counterexamples.PaidOrderCanBeCanceledUnnoticed | apps/orders/internal/order/postgres_repository.go:379-383 | From every reachable state with a free ticket there is a run in which the payment succeeds, the order is Canceled for good, and no continuation makes Payments apply or record the cancellation. |
| Counterexamples.SomeCourseSellsTwice | apps/orders/internal/order/postgres_repository.go:413-417 | The double sale happens in the whole world: for any ticket and any two users some course through outboxes, streams and durables ends with a Complete order of each. |
| Counterexamples.SomeCourseCancelsUnnoticed | apps/payments/internal/payment/postgres_repository.go:306-317 | So does the unnoticed cancellation: after some course, no continuation of it tells Payments. |
| Counterexamples.SomePass | apps/orders/internal/consumer/ticket_consumer.go:115-152 | Whatever was emitted can be delivered to any service in any order, so the passes of the convergence theorems exist. |

## Left out

- Sales.TimelySalesAreUnique: a sufficient condition only, timely payment; the exact condition for at most one sale is in SoldOnceIffGuarded.
- Projections.ProjectionConverges: counts passes of redelivery, as do MarkerConverges and PaymentsConverge; that the broker keeps redelivering, and for how long, is not modelled beyond the retry budget of the consumers.
- Processor.Processor.ProcessPending: other writers of the ledger between two calls are not in the loop but in the Saga machine; a commit whose answer is lost is not in it either. The random ten per cent of failures is a sequence of arbitrary draws.
- Publisher.AcceptedIsRetriedInsideWindow: database latency is not counted, and the row is claimable, not yet claimed, at the bound.
- Publisher.Publisher.PublishPending: connecting to the broker, the mutex around the connection and the polling loop are not modelled; the replies of broker and database are parameters.
- Consumers.Consumer.HandleDelivery: the handler's answer is a parameter here; World connects it to the transactions. A failing negative acknowledgment is only logged by the code and leaves the message to the broker's own redelivery.
- DeadLetters.DeadLetterer.MergeSubjects: creating the stream when there is none, and reading its configuration, are broker calls.
- The other consumers' copies of delivery code: payment_consumer.go, payment_result_consumer.go, expiration_consumer.go and the dead_letter.go of Tickets and Payments differ in names, failure classes and delays only; one class with a durable or policy parameter models them all.
- Protobuf, UUID and timestamp parsing: events are values, and the validity conditions of the handlers that remain (blank title or user, price, version, status) are predicates. A payload that does not parse is an invalid event.
- The service layer's read before a ticket update (apps/tickets/internal/ticket/service.go:49-58): it can only refuse what the repository would decide again.
- Read-only queries: GetByIDAndUser, ListByUser, FindByID and List change nothing.
- 64-bit wrap-around of versions and prices: versions count transactions and prices are bounded by MaxPrice on entry, so integers are unbounded here; only the bound on price is modelled.
- Sequence numbers and created_at of outbox rows: a row's sequence is its position; gaps that rolled-back inserts leave in the sequence do not change any order.
- Expiration's scheduler and its own consumer: an expiration is a step of the environment, possible any number of times once the creation event is on the stream and the expiry has passed.
- API gateway, identity, concert assistant, tracing, metrics, logging, connection loops, migration and replay programs: no state the protocol depends on.
