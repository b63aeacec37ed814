/** What the six Go consumers do with one delivery: acknowledge it, ask for redelivery, or park
    it in the dead letter queue and acknowledge it. */
module Consumers {
  import opened Events

  datatype Durable =
    | OrdersTicketProjection
    | OrdersPaymentCreated
    | OrdersPaymentSucceeded
    | OrdersPaymentFailed
    | OrdersExpirationComplete
    | TicketsOrderReservation
    | TicketsOrderCancellation
    | PaymentsOrderProjection

  datatype FailureClass = ClassInvalid | ClassVersionGap | ClassReservationPending | ClassRetryable

  /** The failure-class functions; the payment and expiration consumers of Orders have but two classes. */
  function ClassOf(d: Durable, f: Failure): FailureClass {
    match d
    case OrdersTicketProjection =>
      if f == InvalidEvent || f == UnsupportedSubject then ClassInvalid
      else if f == VersionGap then ClassVersionGap
      else ClassRetryable
    case TicketsOrderReservation => OrderClass(f)
    case TicketsOrderCancellation => OrderClass(f)
    case PaymentsOrderProjection =>
      if f == InvalidEvent || f == UnsupportedSubject then ClassInvalid
      else if f == VersionGap then ClassVersionGap
      else ClassRetryable
    case _ => if f == InvalidEvent then ClassInvalid else ClassRetryable
  }

  function OrderClass(f: Failure): FailureClass {
    if f == InvalidEvent || f == UnsupportedSubject then ClassInvalid
    else if f == ReservationPending then ClassReservationPending
    else ClassRetryable
  }

  const MAX_RETRIES: nat := 5

  /** Seconds. */
  const VERSION_GAP_DELAYS: seq<nat> := [1, 2, 4, 8, 16]

  function Power2(n: nat): nat {
    if n == 0 then 1 else 2 * Power2(n - 1)
  }

  /** One second for the first delivery, doubling up to sixteen for the fifth and all later ones. */
  function VersionGapDelay(count: nat): (delay: nat)
    ensures delay == Power2(if count == 0 then 0 else if count > MAX_RETRIES then MAX_RETRIES - 1 else count - 1)
  {
    assert Power2(1) == 2 && Power2(2) == 4 && Power2(3) == 8 && Power2(4) == 16;
    if count == 0 then VERSION_GAP_DELAYS[0]
    else if count - 1 >= |VERSION_GAP_DELAYS| then VERSION_GAP_DELAYS[|VERSION_GAP_DELAYS| - 1]
    else VERSION_GAP_DELAYS[count - 1]
  }

  predicate Parks(d: Durable, f: Failure, count: nat) {
    ClassOf(d, f) == ClassInvalid || count > MAX_RETRIES
  }

  /** Only two consumers delay the redelivery; None is a plain negative acknowledgment. */
  function RetryDelay(d: Durable, f: Failure, count: nat): Option<nat> {
    if d == OrdersTicketProjection && ClassOf(d, f) == ClassVersionGap then Some(VersionGapDelay(count))
    else if (d == TicketsOrderReservation || d == TicketsOrderCancellation) && f == ReservationPending then Some(1)
    else None
  }

  /** Whether the server has settled the delivery, and whether a dead letter was written. */
  datatype Settlement = Settlement(acked: bool, parked: bool)

  function Settle(d: Durable, result: Result<()>, count: nat, dlqWorks: bool, ackWorks: bool): Settlement {
    match result
    case Success(_) => Settlement(ackWorks, false)
    case Failed(f) =>
      if Parks(d, f, count) then Settlement(dlqWorks && ackWorks, dlqWorks) else Settlement(false, false)
  }

  /** A settled delivery was handled or parked: the message is never dropped. */
  lemma SettledIsHandledOrParked(d: Durable, result: Result<()>, count: nat, dlqWorks: bool, ackWorks: bool)
    requires Settle(d, result, count, dlqWorks, ackWorks).acked
    ensures result.Success? || Settle(d, result, count, dlqWorks, ackWorks).parked
  {
  }

  /** What the handler took is not parked. */
  lemma ParkedIsAFailure(d: Durable, result: Result<()>, count: nat, dlqWorks: bool, ackWorks: bool)
    requires Settle(d, result, count, dlqWorks, ackWorks).parked
    ensures result.Failed?
  {
  }

  /** An event that is not invalid is parked on its sixth delivery or later. */
  lemma ParkedAfterRetries(d: Durable, f: Failure, count: nat, dlqWorks: bool, ackWorks: bool)
    requires Settle(d, Failed(f), count, dlqWorks, ackWorks).parked && ClassOf(d, f) != ClassInvalid
    ensures count >= MAX_RETRIES + 1
  {
  }

  /** The deliveries of one message, the i-th counted i + 1, up to the one that settles it. */
  function DeliveriesUntilSettled(d: Durable, results: seq<Result<()>>, count: nat): nat
    decreases |results|
  {
    if results == [] || Settle(d, results[0], count, true, true).acked then 0
    else 1 + DeliveriesUntilSettled(d, results[1..], count + 1)
  }

  /** With a working dead letter queue and working acknowledgments a chain of deliveries settles
      by the measure six minus the delivery count, whatever the handler answers. */
  lemma {:induction false} ChainsSettle(d: Durable, results: seq<Result<()>>, count: nat)
    requires 1 <= count
    ensures DeliveriesUntilSettled(d, results, count) <= if count <= 6 then 6 - count else 0
    decreases |results|
  {
    if results != [] {
      ChainsSettle(d, results[1..], count + 1);
    }
  }

  // ----- The consumers themselves -----

  /** A JetStream message handle. */
  class Message {
    const count: nat
    const acksWork: bool
    var acked: bool
    var redelivery: Option<Option<nat>>

    constructor (count: nat, acksWork: bool)
      ensures this.count == count && this.acksWork == acksWork && !acked && redelivery == None
    {
      this.count, this.acksWork, acked, redelivery := count, acksWork, false, None;
    }

    method Ack() returns (ok: bool)
      modifies this`acked
      ensures ok == acksWork && acked == (old(acked) || acksWork)
    {
      ok := acksWork;
      acked := acked || acksWork;
    }

    method Nak(delay: Option<nat>)
      modifies this`redelivery
      ensures redelivery == Some(delay)
    {
      redelivery := Some(delay);
    }
  }

  datatype Letter = Letter(durable: Durable, failureClass: FailureClass, count: nat)

  class DeadLetterQueue {
    const works: bool
    var letters: seq<Letter>

    constructor (works: bool)
      ensures this.works == works && letters == []
    {
      this.works, letters := works, [];
    }

    method Park(letter: Letter) returns (ok: bool)
      modifies this
      ensures ok == works
      ensures letters == if works then old(letters) + [letter] else old(letters)
    {
      ok := works;
      if works {
        letters := letters + [letter];
      }
    }
  }

  class Consumer {
    const durable: Durable
    const deadLetters: DeadLetterQueue?

    constructor (durable: Durable, deadLetters: DeadLetterQueue?)
      ensures this.durable == durable && this.deadLetters == deadLetters
    {
      this.durable, this.deadLetters := durable, deadLetters;
    }

    predicate QueueWorks()
    {
      deadLetters != null && deadLetters.works
    }

    /** The dead letters that handling `result` adds. */
    function Written(result: Result<()>, count: nat): seq<Letter> {
      if result.Failed? && Parks(durable, result.failure, count) && QueueWorks()
      then [Letter(durable, ClassOf(durable, result.failure), count)]
      else []
    }

    /** `result` is what the event handler returned. */
    method HandleDelivery(m: Message, result: Result<()>)
      requires !m.acked && m.redelivery == None
      modifies m, deadLetters
      ensures var s := Settle(durable, result, m.count, QueueWorks(), m.acksWork);
              && m.acked == s.acked
              && (deadLetters != null ==> deadLetters.letters == old(deadLetters.letters) + Written(result, m.count))
      ensures m.redelivery == match result
                              case Success(_) => None
                              case Failed(f) =>
                                if !Parks(durable, f, m.count) then Some(RetryDelay(durable, f, m.count))
                                else if QueueWorks() then None
                                else Some(None)
    {
      if result.Success? {
        var ok := m.Ack();
        return;
      }
      var failureClass := ClassOf(durable, result.failure);
      if failureClass == ClassInvalid || m.count > MAX_RETRIES {
        var parked := Park(m, failureClass);
        return;
      }
      if durable == OrdersTicketProjection && failureClass == ClassVersionGap {
        m.Nak(Some(VersionGapDelay(m.count)));
        return;
      }
      if (durable == TicketsOrderReservation || durable == TicketsOrderCancellation)
        && result.failure == ReservationPending {
        m.Nak(Some(1));
        return;
      }
      m.Nak(None);
    }

    method Park(m: Message, failureClass: FailureClass) returns (done: bool)
      requires !m.acked && m.redelivery == None
      modifies m, deadLetters
      ensures done == (QueueWorks() && m.acksWork) && m.acked == done
      ensures m.redelivery == if QueueWorks() then None else Some(None)
      ensures QueueWorks() ==>
                deadLetters.letters == old(deadLetters.letters) + [Letter(durable, failureClass, m.count)]
      ensures deadLetters != null && !deadLetters.works ==> deadLetters.letters == old(deadLetters.letters)
    {
      if deadLetters == null {
        m.Nak(None);
        return false;
      }
      var ok := deadLetters.Park(Letter(durable, failureClass, m.count));
      if !ok {
        m.Nak(None);
        return false;
      }
      done := m.Ack();
    }
  }
}
