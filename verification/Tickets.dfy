/** The Tickets service: apps/tickets/internal/ticket and apps/tickets/internal/projection.

    Each operation of the repository is given twice.  The function says which transaction it
    is; the method of class Repository carries it out on the tables in place, the way the
    source does, and is proved to have exactly that effect, rollback included. */
module Tickets {
  import opened Events

  const MAX_PRICE: int := 9_007_199_254_740_991

  datatype Ticket = Ticket(id: Uuid, title: string, price: int, userId: string,
                           reservedBy: Option<Uuid>, version: int)

  /** The tables of tickets-db.  Outbox rows are never deleted, so `outbox` is the log of all
      events ever committed, in sequence order. */
  datatype Db = Db(tickets: map<Uuid, Ticket>, processed: set<Uuid>, outbox: seq<Event>)

  const EMPTY: Db := Db(map[], {}, [])

  function CreatedEvent(eventId: Uuid, t: Ticket): Event {
    TicketCreated(eventId, t.version, t.id, t.title, t.price, t.userId)
  }

  function UpdatedEvent(eventId: Uuid, t: Ticket): Event {
    TicketUpdated(eventId, t.version, t.id, t.title, t.price, t.userId)
  }

  /** service.go, validateMutation */
  predicate ValidMutation(title: string, price: int, userId: string) {
    !Blank(title) && 0 < price <= MAX_PRICE && userId != ""
  }

  function Write(db: Db, id: Uuid, t: Ticket, event: Event): Db {
    db.(tickets := db.tickets[id := t], outbox := db.outbox + [event])
  }

  function Create(db: Db, title: string, price: int, userId: string, ticketId: Uuid, eventId: Uuid): Tx<Db, Ticket> {
    if price <= 0 || ticketId in db.tickets then RolledBack(ConstraintViolation)
    else
      var created := Ticket(ticketId, title, price, userId, None, 0);
      Committed(Write(db, ticketId, created, CreatedEvent(eventId, created)), created)
  }

  /** The row a committed change leaves: whatever changed, the version moves on by one. */
  function Next(t: Ticket): Ticket {
    t.(version := t.version + 1)
  }

  function Update(db: Db, id: Uuid, title: string, price: int, userId: string, eventId: Uuid): Tx<Db, Ticket> {
    if id !in db.tickets || db.tickets[id].userId != userId then RolledBack(NotFound)
    else if db.tickets[id].reservedBy.Some? then RolledBack(Reserved)
    else if price <= 0 then RolledBack(ConstraintViolation)
    else
      var updated := Next(db.tickets[id].(title := title, price := price));
      Committed(Write(db, id, updated, UpdatedEvent(eventId, updated)), updated)
  }

  function ReserveTicketFromOrder(db: Db, eventId: Uuid, orderId: Uuid, ticketId: Uuid, newEventId: Uuid): Tx<Db, ()> {
    if eventId in db.processed then Committed(db, ())
    else if ticketId !in db.tickets then RolledBack(NotFound)
    else
      var recorded := db.(processed := db.processed + {eventId});
      var t := db.tickets[ticketId];
      if t.reservedBy == Some(orderId) then Committed(recorded, ())
      else if t.reservedBy.Some? then RolledBack(Reserved)
      else
        var updated := Next(t.(reservedBy := Some(orderId)));
        Committed(Write(recorded, ticketId, updated, UpdatedEvent(newEventId, updated)), ())
  }

  function UnreserveTicketFromOrder(db: Db, eventId: Uuid, orderId: Uuid, ticketId: Uuid, newEventId: Uuid)
    : Tx<Db, ()>
  {
    if eventId in db.processed then Committed(db, ())
    else if ticketId !in db.tickets then RolledBack(NotFound)
    else
      var recorded := db.(processed := db.processed + {eventId});
      var t := db.tickets[ticketId];
      if t.reservedBy != Some(orderId) then RolledBack(ReservationPending)
      else
        var updated := Next(t.(reservedBy := None));
        Committed(Write(recorded, ticketId, updated, UpdatedEvent(newEventId, updated)), ())
  }

  /** service.go: the mutations reach the repository only with valid fields. */
  function CreateTicket(db: Db, title: string, price: int, userId: string, ticketId: Uuid, eventId: Uuid)
    : Tx<Db, Ticket>
  {
    if !ValidMutation(title, price, userId) then RolledBack(InvalidInput)
    else Create(db, title, price, userId, ticketId, eventId)
  }

  function UpdateTicket(db: Db, id: Uuid, title: string, price: int, userId: string, eventId: Uuid): Tx<Db, Ticket> {
    if !ValidMutation(title, price, userId) then RolledBack(InvalidInput)
    else Update(db, id, title, price, userId, eventId)
  }

  /** projection/order_handler.go */
  function Handle(db: Db, e: Event, newEventId: Uuid): Tx<Db, ()> {
    if !e.Order?() then RolledBack(UnsupportedSubject)
    else if !ValidOrderEvent(e) then RolledBack(InvalidEvent)
    else if e.OrderCreated? then ReserveTicketFromOrder(db, e.eventId, e.orderId, e.ticketId, newEventId)
    else UnreserveTicketFromOrder(db, e.eventId, e.orderId, e.ticketId, newEventId)
  }

  /** postgres_repository.go.  Generated identifiers are parameters. */
  class Repository {
    var tickets: map<Uuid, Ticket>
    var processed: set<Uuid>
    var outbox: seq<Event>

    function Tables(): Db
      reads this
    {
      Db(tickets, processed, outbox)
    }

    constructor ()
      ensures Tables() == EMPTY
    {
      tickets, processed, outbox := map[], {}, [];
    }

    /** The deferred tx.Rollback. */
    method Rollback(before: Db)
      modifies this
      ensures Tables() == before
    {
      tickets, processed, outbox := before.tickets, before.processed, before.outbox;
    }

    method RecordProcessedEvent(eventId: Uuid) returns (first: bool)
      modifies this`processed
      ensures first <==> eventId !in old(processed)
      ensures processed == old(processed) + {eventId}
    {
      first := eventId !in processed;
      processed := processed + {eventId};
    }

    method InsertTicketUpdatedEvent(eventId: Uuid, updated: Ticket)
      modifies this`outbox
      ensures outbox == old(outbox) + [UpdatedEvent(eventId, updated)]
    {
      outbox := outbox + [UpdatedEvent(eventId, updated)];
    }

    method CreateRow(title: string, price: int, userId: string, ticketId: Uuid, eventId: Uuid)
      returns (r: Result<Ticket>)
      modifies this
      ensures var tx := Create(old(Tables()), title, price, userId, ticketId, eventId);
              Tables() == tx.After(old(Tables())) && r == tx.Result()
    {
      if price <= 0 || ticketId in tickets {
        return Failed(ConstraintViolation);
      }
      var created := Ticket(ticketId, title, price, userId, None, 0);
      tickets := tickets[ticketId := created];
      outbox := outbox + [CreatedEvent(eventId, created)];
      return Success(created);
    }

    method UpdateRow(id: Uuid, title: string, price: int, userId: string, eventId: Uuid) returns (r: Result<Ticket>)
      modifies this
      ensures var tx := Update(old(Tables()), id, title, price, userId, eventId);
              Tables() == tx.After(old(Tables())) && r == tx.Result()
    {
      if id !in tickets || tickets[id].userId != userId {
        return Failed(NotFound);
      }
      if tickets[id].reservedBy.Some? {
        return Failed(Reserved);
      }
      if price <= 0 {
        return Failed(ConstraintViolation);
      }
      var updated := Next(tickets[id].(title := title, price := price));
      tickets := tickets[id := updated];
      InsertTicketUpdatedEvent(eventId, updated);
      return Success(updated);
    }

    method Reserve(eventId: Uuid, orderId: Uuid, ticketId: Uuid, newEventId: Uuid) returns (r: Result<()>)
      modifies this
      ensures var tx := ReserveTicketFromOrder(old(Tables()), eventId, orderId, ticketId, newEventId);
              Tables() == tx.After(old(Tables())) && r == tx.Result()
    {
      var before := Tables();
      var first := RecordProcessedEvent(eventId);
      if !first {
        assert processed == before.processed;
        return Success(());
      }
      if ticketId !in tickets {
        Rollback(before);
        return Failed(NotFound);
      }
      var t := tickets[ticketId];
      if t.reservedBy.Some? {
        if t.reservedBy.value == orderId {
          return Success(());
        }
        Rollback(before);
        return Failed(Reserved);
      }
      var updated := Next(t.(reservedBy := Some(orderId)));
      tickets := tickets[ticketId := updated];
      InsertTicketUpdatedEvent(newEventId, updated);
      return Success(());
    }

    method Unreserve(eventId: Uuid, orderId: Uuid, ticketId: Uuid, newEventId: Uuid) returns (r: Result<()>)
      modifies this
      ensures var tx := UnreserveTicketFromOrder(old(Tables()), eventId, orderId, ticketId, newEventId);
              Tables() == tx.After(old(Tables())) && r == tx.Result()
    {
      var before := Tables();
      var first := RecordProcessedEvent(eventId);
      if !first {
        assert processed == before.processed;
        return Success(());
      }
      if ticketId !in tickets {
        Rollback(before);
        return Failed(NotFound);
      }
      var t := tickets[ticketId];
      if t.reservedBy.None? || t.reservedBy.value != orderId {
        Rollback(before);
        return Failed(ReservationPending);
      }
      var updated := Next(t.(reservedBy := None));
      tickets := tickets[ticketId := updated];
      InsertTicketUpdatedEvent(newEventId, updated);
      return Success(());
    }
  }
}
