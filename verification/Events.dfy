/** Identifiers, the events the services exchange, and the shape of a database transaction. */
module Events {

  /** A UUID.  Only equality and the ORDER BY of the payments table look at it. */
  type Uuid = nat

  datatype Option<+T> = None | Some(value: T)

  /** Every reason for which a repository method or an event handler gives up. */
  datatype Failure =
    | InvalidEvent
    | UnsupportedSubject
    | VersionGap
    | NotFound
    | Reserved
    | ReservationPending
    | OrderNotFound
    | OrderNotCancelable
    | OrderNotPayable
    | InvalidInput
    | InvalidOutcome
    | ConstraintViolation
    | Unavailable

  datatype Result<+T> = Success(value: T) | Failed(failure: Failure)

  /** A database transaction: it commits a whole new database, or it returns an error and
      the deferred rollback leaves nothing behind. */
  datatype Tx<D, +T> = Committed(db: D, value: T) | RolledBack(failure: Failure) {

    /** The database other transactions see once this one, started on `before`, is over. */
    function After(before: D): D {
      if Committed? then db else before
    }

    function Result(): Result<T> {
      if Committed? then Success(value) else Failed(failure)
    }
  }

  datatype OrderStatus = Created | Canceled | AwaitingPayment | Complete

  /** The payloads on the wire.  `eventId` is the key every consumer deduplicates by. */
  datatype Event =
    | TicketCreated(eventId: Uuid, version: int, ticketId: Uuid, title: string, price: int, userId: string)
    | TicketUpdated(eventId: Uuid, version: int, ticketId: Uuid, title: string, price: int, userId: string)
    | OrderCreated(eventId: Uuid, orderId: Uuid, status: OrderStatus, userId: string, expiresAt: int,
                   version: int, ticketId: Uuid, price: int)
    | OrderCanceled(eventId: Uuid, orderId: Uuid, version: int, ticketId: Uuid)
    | PaymentCreated(eventId: Uuid, paymentId: Uuid, orderId: Uuid)
    | PaymentSucceeded(eventId: Uuid, paymentId: Uuid, orderId: Uuid)
    | PaymentFailed(eventId: Uuid, paymentId: Uuid, orderId: Uuid)
    | ExpirationComplete(eventId: Uuid, orderId: Uuid)
  {
    predicate Ticket?() { TicketCreated? || TicketUpdated? }

    predicate Order?() { OrderCreated? || OrderCanceled? }

    predicate PaymentResult?() { PaymentSucceeded? || PaymentFailed? }

    predicate Payment?() { PaymentCreated? || PaymentResult?() }
  }

  predicate IsSpace(c: char) {
    c in " \t\n\r" || c in ['\U{000B}', '\U{000C}', '\U{0085}', '\U{00A0}', '\U{1680}', '\U{2028}',
                            '\U{2029}', '\U{202F}', '\U{205F}', '\U{3000}']
    || '\U{2000}' <= c <= '\U{200A}'
  }

  /** strings.TrimSpace(s) == "", see BlankIsTrimmedAway. */
  predicate Blank(s: string) {
    forall i | 0 <= i < |s| :: IsSpace(s[i])
  }

  function TrimLeft(s: string): string {
    if s != "" && IsSpace(s[0]) then TrimLeft(s[1..]) else s
  }

  function TrimRight(s: string): string {
    if s != "" && IsSpace(s[|s| - 1]) then TrimRight(s[..|s| - 1]) else s
  }

  /** strings.TrimSpace */
  function TrimSpace(s: string): string {
    TrimRight(TrimLeft(s))
  }

  lemma {:induction false} TrimRightKeepsVisible(s: string)
    ensures TrimRight(s) == "" <==> Blank(s)
  {
    if s != "" && IsSpace(s[|s| - 1]) {
      TrimRightKeepsVisible(s[..|s| - 1]);
    }
  }

  lemma {:induction false} TrimLeftKeepsVisible(s: string)
    ensures Blank(TrimLeft(s)) <==> Blank(s)
  {
    if s != "" && IsSpace(s[0]) {
      TrimLeftKeepsVisible(s[1..]);
      assert Blank(s[1..]) <==> Blank(s) by {
        assert forall i | 0 <= i < |s| - 1 :: s[1..][i] == s[i + 1];
      }
    }
  }

  /** A text is blank exactly if trimming leaves nothing of it. */
  lemma BlankIsTrimmedAway(s: string)
    ensures Blank(s) <==> TrimSpace(s) == ""
  {
    TrimLeftKeepsVisible(s);
    TrimRightKeepsVisible(TrimLeft(s));
  }

  /** The code points that unicode.IsSpace calls space. */
  lemma SpacesByCodePoint(c: char)
    ensures var n := c as int;
            IsSpace(c) <==> 9 <= n <= 13 || n in {0x20, 0x85, 0xA0, 0x1680, 0x2028, 0x2029, 0x202F, 0x205F, 0x3000}
                            || 0x2000 <= n <= 0x200A
  {
  }

  predicate ValidTicketEvent(e: Event) {
    e.Ticket?() && !Blank(e.title) && e.price > 0 && e.version >= 0
  }

  predicate ValidOrderEvent(e: Event) {
    match e
    case OrderCreated(_, _, status, userId, _, version, _, price) =>
      !Blank(userId) && version >= 0 && status == Created && price > 0
    case OrderCanceled(_, _, version, _) => version >= 0
    case _ => false
  }

  /** No two entries of a log carry the same event id. */
  ghost predicate DistinctIds(log: seq<Event>) {
    forall i, j | 0 <= i < j < |log| :: log[i].eventId != log[j].eventId
  }
}
