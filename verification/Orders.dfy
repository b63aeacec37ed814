/** The Orders service: apps/orders/internal/order and apps/orders/internal/projection. */
module Orders {
  import opened Events

  /** A row of the orders-owned projection of the tickets, without its key. */
  datatype TicketRow = TicketRow(title: string, price: int, version: int)

  datatype Order = Order(id: Uuid, expiresAt: int, userId: string, ticketId: Uuid,
                         status: OrderStatus, version: int)

  datatype Reservation = Reservation(created: bool, order: Order)

  /** The tables of orders-db; `outbox` is the log of all events ever committed. */
  datatype Db = Db(tickets: map<Uuid, TicketRow>, orders: map<Uuid, Order>,
                   processed: set<Uuid>, outbox: seq<Event>)

  const EMPTY: Db := Db(map[], map[], {}, [])

  predicate Active(status: OrderStatus) {
    status == Created || status == AwaitingPayment
  }

  /** An order that holds its ticket until it expires. */
  predicate Live(o: Order, now: int) {
    Active(o.status) && o.expiresAt > now
  }

  predicate Blocks(o: Order, ticketId: Uuid, now: int) {
    o.ticketId == ticketId && (o.status == Complete || Live(o, now))
  }

  /** The ORDER BY of findBlockingOrder puts `a` strictly before `b`. */
  predicate RanksBefore(a: Order, b: Order) {
    if a.status == Complete && b.status == Complete then a.expiresAt > b.expiresAt
    else if a.status == Complete || b.status == Complete then a.status == Complete
    else a.expiresAt > b.expiresAt
  }

  /** `pick` is a row findBlockingOrder may return; equal ranks leave the choice to Postgres. */
  ghost predicate IsBlockingOrder(orders: map<Uuid, Order>, ticketId: Uuid, now: int, pick: Option<Uuid>) {
    match pick
    case None => forall id | id in orders :: !Blocks(orders[id], ticketId, now)
    case Some(best) =>
      && best in orders && Blocks(orders[best], ticketId, now)
      && forall id | id in orders && Blocks(orders[id], ticketId, now) :: !RanksBefore(orders[id], orders[best])
  }

  function CreatedEvent(eventId: Uuid, o: Order, price: int): Event {
    OrderCreated(eventId, o.id, o.status, o.userId, o.expiresAt, o.version, o.ticketId, price)
  }

  function CanceledEvent(eventId: Uuid, o: Order): Event {
    OrderCanceled(eventId, o.id, o.version, o.ticketId)
  }

  function Record(db: Db, eventId: Uuid): Db {
    db.(processed := db.processed + {eventId})
  }

  function InsertOrder(db: Db, id: Uuid, o: Order, event: Event): Db {
    db.(orders := db.orders[id := o], outbox := db.outbox + [event])
  }

  /** UPDATE orders SET status = ..., aggregate_version = aggregate_version + 1 */
  function Moved(o: Order, status: OrderStatus): Order {
    o.(status := status, version := o.version + 1)
  }

  function Move(db: Db, id: Uuid, status: OrderStatus): Db
    requires id in db.orders
  {
    db.(orders := db.orders[id := Moved(db.orders[id], status)])
  }

  function Cancel(db: Db, id: Uuid, eventId: Uuid): Db
    requires id in db.orders
  {
    var canceled := Moved(db.orders[id], Canceled);
    db.(orders := db.orders[id := canceled], outbox := db.outbox + [CanceledEvent(eventId, canceled)])
  }

  /** `now` is the transaction's NOW(), `pick` what findBlockingOrder returned. */
  function ReserveTicket(db: Db, now: int, expiresAt: int, ticketId: Uuid, userId: string,
                         pick: Option<Uuid>, orderId: Uuid, eventId: Uuid): Tx<Db, Reservation>
    requires IsBlockingOrder(db.orders, ticketId, now, pick)
  {
    if ticketId !in db.tickets then RolledBack(NotFound)
    else if pick.Some? then
      var existing := db.orders[pick.value];
      if existing.userId == userId && existing.status != Complete
      then Committed(db, Reservation(false, existing))
      else RolledBack(Reserved)
    else if orderId in db.orders then RolledBack(ConstraintViolation)
    else
      var created := Order(orderId, expiresAt, userId, ticketId, Created, 0);
      Committed(InsertOrder(db, orderId, created, CreatedEvent(eventId, created, db.tickets[ticketId].price)),
                Reservation(true, created))
  }

  /** service.go: a reservation reaches the repository only for a named user. */
  function ReserveTicketForUser(db: Db, now: int, expiresAt: int, ticketId: Uuid, userId: string,
                                pick: Option<Uuid>, orderId: Uuid, eventId: Uuid): Tx<Db, Reservation>
    requires IsBlockingOrder(db.orders, ticketId, now, pick)
  {
    if Blank(userId) then RolledBack(InvalidInput)
    else ReserveTicket(db, now, expiresAt, ticketId, userId, pick, orderId, eventId)
  }

  function CancelByIDAndUser(db: Db, orderId: Uuid, userId: string, eventId: Uuid): Tx<Db, Order> {
    if orderId !in db.orders || db.orders[orderId].userId != userId then RolledBack(OrderNotFound)
    else if Active(db.orders[orderId].status) then
      Committed(Cancel(db, orderId, eventId), Moved(db.orders[orderId], Canceled))
    else if db.orders[orderId].status == Canceled then Committed(db, db.orders[orderId])
    else RolledBack(OrderNotCancelable)
  }

  function ApplyExpirationComplete(db: Db, eventId: Uuid, orderId: Uuid, newEventId: Uuid): Tx<Db, ()> {
    if eventId in db.processed then Committed(db, ())
    else if orderId in db.orders && db.orders[orderId].status == Created
    then Committed(Cancel(Record(db, eventId), orderId, newEventId), ())
    else Committed(Record(db, eventId), ())
  }

  function ApplyPaymentCreated(db: Db, eventId: Uuid, orderId: Uuid): Tx<Db, ()> {
    if eventId in db.processed then Committed(db, ())
    else if orderId in db.orders && db.orders[orderId].status == Created
    then Committed(Move(Record(db, eventId), orderId, AwaitingPayment), ())
    else Committed(Record(db, eventId), ())
  }

  function ApplyPaymentSucceeded(db: Db, eventId: Uuid, orderId: Uuid): Tx<Db, ()> {
    if eventId in db.processed then Committed(db, ())
    else if orderId in db.orders && Active(db.orders[orderId].status)
    then Committed(Move(Record(db, eventId), orderId, Complete), ())
    else Committed(Record(db, eventId), ())
  }

  function ApplyPaymentFailed(db: Db, eventId: Uuid, orderId: Uuid, newEventId: Uuid): Tx<Db, ()> {
    if eventId in db.processed then Committed(db, ())
    else if orderId in db.orders && Active(db.orders[orderId].status)
    then Committed(Cancel(Record(db, eventId), orderId, newEventId), ())
    else Committed(Record(db, eventId), ())
  }

  datatype VersionDecision = Apply | Ignore | Gap

  function DecideTicketEventVersion(stored: Option<int>, incoming: int): VersionDecision {
    match stored
    case None => if incoming == 0 then Apply else Gap
    case Some(version) =>
      if incoming > version + 1 then Gap
      else if incoming <= version then Ignore
      else Apply
  }

  function StoredVersion(db: Db, id: Uuid): Option<int> {
    if id in db.tickets then Some(db.tickets[id].version) else None
  }

  function UpsertTicketFromEvent(db: Db, eventId: Uuid, id: Uuid, ticket: TicketRow): Tx<Db, ()> {
    if eventId in db.processed then Committed(db, ())
    else
      match DecideTicketEventVersion(StoredVersion(db, id), ticket.version)
      case Gap => RolledBack(VersionGap)
      case Ignore => Committed(Record(db, eventId), ())
      case Apply =>
        if ticket.price <= 0 then RolledBack(ConstraintViolation)
        else Committed(Record(db, eventId).(tickets := db.tickets[id := ticket]), ())
  }

  function RowOf(e: Event): TicketRow
    requires e.Ticket?()
  {
    TicketRow(e.title, e.price, e.version)
  }

  /** The event handlers of the five Orders consumers. */
  function Handle(db: Db, e: Event, newEventId: Uuid): Tx<Db, ()> {
    match e
    case TicketCreated(_, _, _, _, _, _) =>
      if !ValidTicketEvent(e) then RolledBack(InvalidEvent)
      else UpsertTicketFromEvent(db, e.eventId, e.ticketId, RowOf(e))
    case TicketUpdated(_, _, _, _, _, _) =>
      if !ValidTicketEvent(e) then RolledBack(InvalidEvent)
      else UpsertTicketFromEvent(db, e.eventId, e.ticketId, RowOf(e))
    case PaymentCreated(eventId, _, orderId) => ApplyPaymentCreated(db, eventId, orderId)
    case PaymentSucceeded(eventId, _, orderId) => ApplyPaymentSucceeded(db, eventId, orderId)
    case PaymentFailed(eventId, _, orderId) => ApplyPaymentFailed(db, eventId, orderId, newEventId)
    case ExpirationComplete(eventId, orderId) => ApplyExpirationComplete(db, eventId, orderId, newEventId)
    case _ => RolledBack(UnsupportedSubject)
  }

  /** A finite, non-empty set of orders has one that no other outranks, so LIMIT 1 has a row to return. */
  lemma {:induction false} SomeOrderRanksFirst(orders: map<Uuid, Order>, candidates: set<Uuid>)
    requires candidates != {} && candidates <= orders.Keys
    ensures exists best :: best in candidates && forall id | id in candidates :: !RanksBefore(orders[id], orders[best])
    decreases |candidates|
  {
    var some :| some in candidates;
    var rest := candidates - {some};
    if rest == {} {
      assert candidates == {some};
      assert some in candidates && forall id | id in candidates :: !RanksBefore(orders[id], orders[some]);
    } else {
      SomeOrderRanksFirst(orders, rest);
      var best :| best in rest && forall id | id in rest :: !RanksBefore(orders[id], orders[best]);
      var winner := if RanksBefore(orders[some], orders[best]) then some else best;
      assert winner in candidates && forall id | id in candidates :: !RanksBefore(orders[id], orders[winner]);
    }
  }

  /** Whichever row Postgres picks among equals, a Complete order decides the outcome. */
  lemma PickIsCompleteIfAnyIs(orders: map<Uuid, Order>, ticketId: Uuid, now: int, pick: Option<Uuid>, id: Uuid)
    requires IsBlockingOrder(orders, ticketId, now, pick)
    requires id in orders && orders[id].ticketId == ticketId && orders[id].status == Complete
    ensures pick.Some? && orders[pick.value].status == Complete
  {
    assert Blocks(orders[id], ticketId, now);
  }

  /** postgres_repository.go.  Generated identifiers and the clock are parameters. */
  class Repository {
    var tickets: map<Uuid, TicketRow>
    var orders: map<Uuid, Order>
    var processed: set<Uuid>
    var outbox: seq<Event>

    function Tables(): Db
      reads this
    {
      Db(tickets, orders, processed, outbox)
    }

    constructor ()
      ensures Tables() == EMPTY
    {
      tickets, orders, processed, outbox := map[], map[], {}, [];
    }

    method Rollback(before: Db)
      modifies this
      ensures Tables() == before
    {
      tickets, orders, processed, outbox := before.tickets, before.orders, before.processed, before.outbox;
    }

    method FindBlockingOrder(ticketId: Uuid, now: int) returns (found: Option<Uuid>)
      ensures IsBlockingOrder(orders, ticketId, now, found)
    {
      var candidates := set id | id in orders && Blocks(orders[id], ticketId, now);
      if candidates == {} {
        assert forall id | id in orders :: Blocks(orders[id], ticketId, now) ==> id in candidates;
        return None;
      }
      SomeOrderRanksFirst(orders, candidates);
      var best :| best in candidates && forall id | id in candidates :: !RanksBefore(orders[id], orders[best]);
      return Some(best);
    }

    method InsertOrderRow(orderId: Uuid, expiresAt: int, userId: string, ticketId: Uuid) returns (created: Order)
      requires orderId !in orders
      modifies this`orders
      ensures created == Order(orderId, expiresAt, userId, ticketId, Created, 0)
      ensures orders == old(orders)[orderId := created]
    {
      created := Order(orderId, expiresAt, userId, ticketId, Created, 0);
      orders := orders[orderId := created];
    }

    method InsertEvent(event: Event)
      modifies this`outbox
      ensures outbox == old(outbox) + [event]
    {
      outbox := outbox + [event];
    }

    method Reserve(now: int, expiresAt: int, ticketId: Uuid, userId: string, orderId: Uuid, eventId: Uuid)
      returns (r: Result<Reservation>, ghost pick: Option<Uuid>)
      modifies this
      ensures IsBlockingOrder(old(orders), ticketId, now, pick)
      ensures var tx := ReserveTicket(old(Tables()), now, expiresAt, ticketId, userId, pick, orderId, eventId);
              Tables() == tx.After(old(Tables())) && r == tx.Result()
    {
      var found := FindBlockingOrder(ticketId, now);
      pick := found;
      if ticketId !in tickets {
        return Failed(NotFound), pick;
      }
      if found.Some? {
        var existing := orders[found.value];
        if existing.userId == userId && existing.status != Complete {
          return Success(Reservation(false, existing)), pick;
        }
        return Failed(Reserved), pick;
      }
      if orderId in orders {
        return Failed(ConstraintViolation), pick;
      }
      var created := InsertOrderRow(orderId, expiresAt, userId, ticketId);
      InsertEvent(CreatedEvent(eventId, created, tickets[ticketId].price));
      return Success(Reservation(true, created)), pick;
    }

    /** UPDATE ... WHERE id = $1 AND status IN eligible RETURNING ...: None when no row matches. */
    method UpdateStatus(orderId: Uuid, eligible: set<OrderStatus>, status: OrderStatus) returns (row: Option<Order>)
      modifies this`orders
      ensures row.Some? <==> orderId in old(orders) && old(orders)[orderId].status in eligible
      ensures row.None? ==> orders == old(orders)
      ensures row.Some? ==>
                row.value == Moved(old(orders)[orderId], status) && orders == old(orders)[orderId := row.value]
    {
      if orderId !in orders || orders[orderId].status !in eligible {
        return None;
      }
      var moved := orders[orderId];
      moved := moved.(status := status, version := moved.version + 1);
      orders := orders[orderId := moved];
      return Some(moved);
    }

    method CancelForUser(orderId: Uuid, userId: string, eventId: Uuid) returns (r: Result<Order>)
      modifies this
      ensures var tx := CancelByIDAndUser(old(Tables()), orderId, userId, eventId);
              Tables() == tx.After(old(Tables())) && r == tx.Result()
    {
      if orderId in orders && orders[orderId].userId == userId {
        var canceled := UpdateStatus(orderId, {Created, AwaitingPayment}, Canceled);
        if canceled.Some? {
          InsertEvent(CanceledEvent(eventId, canceled.value));
          return Success(canceled.value);
        }
      }
      if orderId !in orders || orders[orderId].userId != userId {
        return Failed(OrderNotFound);
      }
      if orders[orderId].status == Canceled {
        return Success(orders[orderId]);
      }
      return Failed(OrderNotCancelable);
    }

    method RecordProcessed(eventId: Uuid) returns (first: bool)
      modifies this`processed
      ensures first <==> eventId !in old(processed)
      ensures first ==> processed == old(processed) + {eventId}
      ensures !first ==> processed == old(processed)
    {
      if eventId in processed {
        return false;
      }
      processed := processed + {eventId};
      return true;
    }

    method ExpirationCompleted(eventId: Uuid, orderId: Uuid, newEventId: Uuid) returns (r: Result<()>)
      modifies this
      ensures var tx := ApplyExpirationComplete(old(Tables()), eventId, orderId, newEventId);
              Tables() == tx.After(old(Tables())) && r == tx.Result()
    {
      var first := RecordProcessed(eventId);
      if !first {
        return Success(());
      }
      var canceled := UpdateStatus(orderId, {Created}, Canceled);
      if canceled.Some? {
        InsertEvent(CanceledEvent(newEventId, canceled.value));
      }
      return Success(());
    }

    method PaymentWasCreated(eventId: Uuid, orderId: Uuid) returns (r: Result<()>)
      modifies this
      ensures var tx := ApplyPaymentCreated(old(Tables()), eventId, orderId);
              Tables() == tx.After(old(Tables())) && r == tx.Result()
    {
      var first := RecordProcessed(eventId);
      if !first {
        return Success(());
      }
      var moved := UpdateStatus(orderId, {Created}, AwaitingPayment);
      return Success(());
    }

    method PaymentHasSucceeded(eventId: Uuid, orderId: Uuid) returns (r: Result<()>)
      modifies this
      ensures var tx := ApplyPaymentSucceeded(old(Tables()), eventId, orderId);
              Tables() == tx.After(old(Tables())) && r == tx.Result()
    {
      var first := RecordProcessed(eventId);
      if !first {
        return Success(());
      }
      var moved := UpdateStatus(orderId, {Created, AwaitingPayment}, Complete);
      return Success(());
    }

    method PaymentHasFailed(eventId: Uuid, orderId: Uuid, newEventId: Uuid) returns (r: Result<()>)
      modifies this
      ensures var tx := ApplyPaymentFailed(old(Tables()), eventId, orderId, newEventId);
              Tables() == tx.After(old(Tables())) && r == tx.Result()
    {
      var first := RecordProcessed(eventId);
      if !first {
        return Success(());
      }
      var canceled := UpdateStatus(orderId, {Created, AwaitingPayment}, Canceled);
      if canceled.Some? {
        InsertEvent(CanceledEvent(newEventId, canceled.value));
      }
      return Success(());
    }

    method UpsertTicket(eventId: Uuid, id: Uuid, ticket: TicketRow) returns (r: Result<()>)
      modifies this
      ensures var tx := UpsertTicketFromEvent(old(Tables()), eventId, id, ticket);
              Tables() == tx.After(old(Tables())) && r == tx.Result()
    {
      var before := Tables();
      var first := RecordProcessed(eventId);
      if !first {
        return Success(());
      }
      var decision := DecideTicketEventVersion(StoredVersion(Tables(), id), ticket.version);
      if decision == Gap {
        Rollback(before);
        return Failed(VersionGap);
      }
      if decision == Ignore {
        return Success(());
      }
      if ticket.price <= 0 {
        Rollback(before);
        return Failed(ConstraintViolation);
      }
      if id !in tickets {
        tickets := tickets[id := ticket];
      } else {
        var stored := tickets[id];
        tickets := tickets[id := stored.(title := ticket.title, price := ticket.price, version := ticket.version)];
      }
      return Success(());
    }
  }
}
