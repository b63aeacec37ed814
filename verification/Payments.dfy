/** The Payments service: apps/payments/internal/payment and apps/payments/internal/projection. */
module Payments {
  import opened Events

  /** A row of the payments-owned projection of the orders, without its key. */
  datatype OrderRow = OrderRow(version: int, userId: string, price: int, status: OrderStatus)

  datatype PaymentStatus = Pending | Succeeded | FailedStatus

  datatype Payment = Payment(id: Uuid, orderId: Uuid, status: PaymentStatus)

  datatype ProcessorOutcome = OutcomeSuccess | OutcomeFailure | OutcomeUnknown

  /** What Create hands back: the payment, and whether this call made it. */
  datatype Receipt = Receipt(payment: Payment, created: bool)

  /** The tables of payments-db; `outbox` is the log of all events ever committed. */
  datatype Db = Db(orders: map<Uuid, OrderRow>, payments: map<Uuid, Payment>,
                   processed: set<Uuid>, outbox: seq<Event>)

  const EMPTY: Db := Db(map[], map[], {}, [])

  /** The payments of an order; the UNIQUE constraint on order_id is not presupposed. */
  function PaymentsOf(db: Db, orderId: Uuid): set<Uuid> {
    set id | id in db.payments && db.payments[id].orderId == orderId
  }

  function Record(db: Db, eventId: Uuid): Db {
    db.(processed := db.processed + {eventId})
  }

  function Put(db: Db, p: Payment, event: Event): Db {
    db.(payments := db.payments[p.id := p], outbox := db.outbox + [event])
  }

  /** `existing` is the row the SELECT on payments returned. */
  ghost predicate IsPaymentOf(db: Db, orderId: Uuid, existing: Option<Uuid>) {
    match existing
    case None => PaymentsOf(db, orderId) == {}
    case Some(id) => id in PaymentsOf(db, orderId)
  }

  function Create(db: Db, orderId: Uuid, userId: string, existing: Option<Uuid>, paymentId: Uuid,
                  eventId: Uuid): Tx<Db, Receipt>
    requires IsPaymentOf(db, orderId, existing)
  {
    if orderId !in db.orders || db.orders[orderId].userId != userId then RolledBack(OrderNotFound)
    else if existing.Some? then Committed(db, Receipt(db.payments[existing.value], false))
    else if db.orders[orderId].status != Created then RolledBack(OrderNotPayable)
    else if paymentId in db.payments then RolledBack(ConstraintViolation)
    else
      var created := Payment(paymentId, orderId, Pending);
      Committed(Put(db, created, PaymentCreated(eventId, paymentId, orderId)), Receipt(created, true))
  }

  function StatusForOutcome(outcome: ProcessorOutcome): Option<PaymentStatus> {
    match outcome
    case OutcomeSuccess => Some(Succeeded)
    case OutcomeFailure => Some(FailedStatus)
    case OutcomeUnknown => None
  }

  predicate Claimable(db: Db, skip: set<Uuid>, id: Uuid) {
    id in db.payments && db.payments[id].status == Pending && id !in skip
  }

  /** ORDER BY id FOR UPDATE SKIP LOCKED LIMIT 1; `skip` are the rows other transactions hold. */
  ghost predicate IsNextPending(db: Db, skip: set<Uuid>, pick: Option<Uuid>) {
    match pick
    case None => forall id :: !Claimable(db, skip, id)
    case Some(best) => Claimable(db, skip, best) && forall id :: Claimable(db, skip, id) ==> best <= id
  }

  function ResultEvent(eventId: Uuid, p: Payment): Event {
    if p.status == Succeeded then PaymentSucceeded(eventId, p.id, p.orderId)
    else PaymentFailed(eventId, p.id, p.orderId)
  }

  /** None when there was nothing to resolve. */
  function ResolveNextPending(db: Db, outcome: ProcessorOutcome, skip: set<Uuid>, pick: Option<Uuid>,
                              eventId: Uuid): Tx<Db, Option<Payment>>
    requires IsNextPending(db, skip, pick)
  {
    match pick
    case None => Committed(db, None)
    case Some(id) =>
      match StatusForOutcome(outcome)
      case None => RolledBack(InvalidOutcome)
      case Some(status) =>
        var resolved := db.payments[id].(status := status);
        Committed(db.(payments := db.payments[id := resolved], outbox := db.outbox + [ResultEvent(eventId, resolved)]),
                  Some(resolved))
  }

  /** The ledger with pending payment `id` settled, for better or worse, and told so. */
  ghost predicate Settles(db: Db, db': Db, id: Uuid, succeeded: bool, eventId: Uuid) {
    && id in db.payments && db.payments[id].status == Pending
    && var o := db.payments[id].orderId;
       && db'.payments == db.payments[id :=
                                      Payment(db.payments[id].id, o, if succeeded then Succeeded else FailedStatus)]
       && db'.outbox == db.outbox + [if succeeded then PaymentSucceeded(eventId, db.payments[id].id, o)
                                     else PaymentFailed(eventId, db.payments[id].id, o)]
       && db'.orders == db.orders && db'.processed == db.processed
  }

  /** A success settles the picked payment as succeeded, a failure as failed, each with the event
      that says so; without a known outcome, or a payment to pick, nothing happens. */
  lemma ResolutionTellsTheOutcome(db: Db, outcome: ProcessorOutcome, skip: set<Uuid>, pick: Option<Uuid>, eventId: Uuid)
    requires IsNextPending(db, skip, pick)
    ensures var tx := ResolveNextPending(db, outcome, skip, pick, eventId); var db' := tx.After(db);
            && (tx.RolledBack? <==> pick.Some? && outcome == OutcomeUnknown)
            && (tx.RolledBack? ==> tx.failure == InvalidOutcome)
            && (pick.None? ==> tx == Committed(db, None))
            && (pick.Some? && outcome == OutcomeSuccess ==> Settles(db, db', pick.value, true, eventId))
            && (pick.Some? && outcome == OutcomeFailure ==> Settles(db, db', pick.value, false, eventId))
            && (pick.Some? && !tx.RolledBack? ==> tx.value == Some(db'.payments[pick.value]))
  {
    assert pick.Some? ==> Claimable(db, skip, pick.value);
  }

  function ValidateOrderVersion(stored: Option<int>, incoming: int): Result<()> {
    match stored
    case None => if incoming != 0 then Failed(VersionGap) else Success(())
    case Some(version) => if incoming > version + 1 then Failed(VersionGap) else Success(())
  }

  function StoredVersion(db: Db, id: Uuid): Option<int> {
    if id in db.orders then Some(db.orders[id].version) else None
  }

  function UpsertOrderFromEvent(db: Db, eventId: Uuid, id: Uuid, incoming: OrderRow): Tx<Db, ()> {
    if eventId in db.processed then Committed(db, ())
    else if ValidateOrderVersion(StoredVersion(db, id), incoming.version).Failed? then RolledBack(VersionGap)
    else if id in db.orders then Committed(Record(db, eventId), ())
    else if incoming.price <= 0 then RolledBack(ConstraintViolation)
    else Committed(Record(db, eventId).(orders := db.orders[id := incoming]), ())
  }

  function CancelOrderFromEvent(db: Db, eventId: Uuid, orderId: Uuid, version: int): Tx<Db, ()> {
    if eventId in db.processed then Committed(db, ())
    else if orderId !in db.orders then RolledBack(VersionGap)
    else if ValidateOrderVersion(Some(db.orders[orderId].version), version).Failed? then RolledBack(VersionGap)
    else if version <= db.orders[orderId].version then Committed(Record(db, eventId), ())
    else
      var canceled := db.orders[orderId].(status := Canceled, version := version);
      Committed(Record(db, eventId).(orders := db.orders[orderId := canceled]), ())
  }

  /** projection/order_handler.go */
  function Handle(db: Db, e: Event): Tx<Db, ()> {
    if !e.Order?() then RolledBack(UnsupportedSubject)
    else if !ValidOrderEvent(e) then RolledBack(InvalidEvent)
    else if e.OrderCreated? then
      UpsertOrderFromEvent(db, e.eventId, e.orderId, OrderRow(e.version, e.userId, e.price, Created))
    else CancelOrderFromEvent(db, e.eventId, e.orderId, e.version)
  }

  /** Any non-empty finite set of ids has a least one. */
  lemma {:induction false} SomeIdIsLeast(ids: set<Uuid>)
    requires ids != {}
    ensures exists best :: best in ids && forall id | id in ids :: best <= id
    decreases ids
  {
    var some :| some in ids;
    var below := set id | id in ids && id < some;
    if below == {} {
      assert forall id | id in ids :: id < some ==> id in below;
    } else {
      assert some in ids && some !in below;
      SomeIdIsLeast(below);
      var best :| best in below && forall id | id in below :: best <= id;
      forall id | id in ids
        ensures best <= id
      {
        if id < some {
          assert id in below;
        }
      }
    }
  }

  /** postgres_repository.go.  Generated identifiers are parameters. */
  class Repository {
    var orders: map<Uuid, OrderRow>
    var payments: map<Uuid, Payment>
    var processed: set<Uuid>
    var outbox: seq<Event>

    function Tables(): Db
      reads this
    {
      Db(orders, payments, processed, outbox)
    }

    constructor ()
      ensures Tables() == EMPTY
    {
      orders, payments, processed, outbox := map[], map[], {}, [];
    }

    method Rollback(before: Db)
      modifies this
      ensures Tables() == before
    {
      orders, payments, processed, outbox := before.orders, before.payments, before.processed, before.outbox;
    }

    method CreatePayment(orderId: Uuid, userId: string, paymentId: Uuid, eventId: Uuid)
      returns (r: Result<Receipt>, ghost existing: Option<Uuid>)
      modifies this
      ensures IsPaymentOf(old(Tables()), orderId, existing)
      ensures var tx := Create(old(Tables()), orderId, userId, existing, paymentId, eventId);
              Tables() == tx.After(old(Tables())) && r == tx.Result()
    {
      var found := PaymentsOf(Tables(), orderId);
      existing := None;
      if found != {} {
        existing := Some(var id :| id in found; id);
      }
      if orderId !in orders || orders[orderId].userId != userId {
        return Failed(OrderNotFound), existing;
      }
      if found != {} {
        var id :| id in found;
        existing := Some(id);
        return Success(Receipt(payments[id], false)), existing;
      }
      if orders[orderId].status != Created {
        return Failed(OrderNotPayable), existing;
      }
      if paymentId in payments {
        return Failed(ConstraintViolation), existing;
      }
      var created := Payment(paymentId, orderId, Pending);
      payments := payments[paymentId := created];
      outbox := outbox + [PaymentCreated(eventId, paymentId, orderId)];
      return Success(Receipt(created, true)), existing;
    }

    method ResolveNext(outcome: ProcessorOutcome, skip: set<Uuid>, eventId: Uuid)
      returns (r: Result<Option<Payment>>, ghost pick: Option<Uuid>)
      modifies this
      ensures IsNextPending(old(Tables()), skip, pick)
      ensures var tx := ResolveNextPending(old(Tables()), outcome, skip, pick, eventId);
              Tables() == tx.After(old(Tables())) && r == tx.Result()
    {
      var before := Tables();
      var pending := set id | id in payments && Claimable(before, skip, id);
      if pending == {} {
        assert forall id :: Claimable(before, skip, id) ==> id in pending;
        return Success(None), None;
      }
      SomeIdIsLeast(pending);
      var id :| id in pending && forall other | other in pending :: id <= other;
      pick := Some(id);
      assert forall other :: Claimable(before, skip, other) ==> other in pending;
      var status := StatusForOutcome(outcome);
      if status.None? {
        return Failed(InvalidOutcome), pick;
      }
      var resolved := payments[id].(status := status.value);
      payments := payments[id := resolved];
      InsertPaymentResultEvent(eventId, resolved);
      return Success(Some(resolved)), pick;
    }

    method InsertPaymentResultEvent(eventId: Uuid, resolved: Payment)
      modifies this`outbox
      ensures outbox == old(outbox) + [ResultEvent(eventId, resolved)]
    {
      if resolved.status == Succeeded {
        outbox := outbox + [PaymentSucceeded(eventId, resolved.id, resolved.orderId)];
      } else {
        outbox := outbox + [PaymentFailed(eventId, resolved.id, resolved.orderId)];
      }
    }

    method RecordProcessed(eventId: Uuid) returns (first: bool)
      modifies this`processed
      ensures first <==> eventId !in old(processed)
      ensures first ==> processed == old(processed) + {eventId}
      ensures !first ==> processed == old(processed)
    {
      if eventId in processed {
        return false;
      }
      processed := processed + {eventId};
      return true;
    }

    method UpsertOrder(eventId: Uuid, id: Uuid, incoming: OrderRow) returns (r: Result<()>)
      modifies this
      ensures var tx := UpsertOrderFromEvent(old(Tables()), eventId, id, incoming);
              Tables() == tx.After(old(Tables())) && r == tx.Result()
    {
      var before := Tables();
      var first := RecordProcessed(eventId);
      if !first {
        return Success(());
      }
      var verdict := ValidateOrderVersion(StoredVersion(Tables(), id), incoming.version);
      if verdict.Failed? {
        Rollback(before);
        return Failed(VersionGap);
      }
      if id in orders {
        return Success(());
      }
      if incoming.price <= 0 {
        Rollback(before);
        return Failed(ConstraintViolation);
      }
      orders := orders[id := incoming];
      return Success(());
    }

    method CancelOrder(eventId: Uuid, orderId: Uuid, version: int) returns (r: Result<()>)
      modifies this
      ensures var tx := CancelOrderFromEvent(old(Tables()), eventId, orderId, version);
              Tables() == tx.After(old(Tables())) && r == tx.Result()
    {
      var before := Tables();
      var first := RecordProcessed(eventId);
      if !first {
        return Success(());
      }
      if orderId !in orders {
        Rollback(before);
        return Failed(VersionGap);
      }
      var verdict := ValidateOrderVersion(Some(orders[orderId].version), version);
      if verdict.Failed? {
        Rollback(before);
        return Failed(VersionGap);
      }
      if version <= orders[orderId].version {
        return Success(());
      }
      orders := orders[orderId := orders[orderId].(status := Canceled, version := version)];
      return Success(());
    }
  }
}
