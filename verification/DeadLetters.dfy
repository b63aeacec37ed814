/** Parking a message in a dead letter queue and replaying it: the dead_letter.go of Orders,
    Tickets and Payments, which differ in their names only. */
module DeadLetters {
  import opened Events

  type Bytes = seq<bv8>

  type Headers = map<string, seq<string>>

  datatype Message = Message(subject: string, headers: Headers, data: Bytes)

  /** nats.Header.Get and Set are case-sensitive. */
  function Get(h: Headers, key: string): string {
    if key in h && h[key] != [] then h[key][0] else ""
  }

  function Put(h: Headers, key: string, value: string): Headers {
    h[key := [value]]
  }

  /** What sets one service's dead letter queue apart from another's. */
  datatype Policy = Policy(parkId: string, replayId: string, header: string, legacy: Option<string>,
                           deadLetterSubjects: seq<string>, consumedSubjects: seq<string>)

  const ORDERS: Policy := Policy(
    "orders-dlq-v1", "orders-dlq-replay-v1", "X-Orders-DLQ-", Some("X-Ticket-DLQ-"),
    ["dlq.orders.ticket-projection.v1", "dlq.orders.expiration-complete.v1", "dlq.orders.payment-created.v1",
     "dlq.orders.payment-succeeded.v1", "dlq.orders.payment-failed.v1"],
    ["tickets.ticket.created.v1", "tickets.ticket.updated.v1", "expiration.expiration.complete.v1",
     "payments.payment.created.v1", "payments.payment.succeeded.v1", "payments.payment.failed.v1"])

  const TICKETS: Policy := Policy(
    "tickets-dlq-v1", "tickets-dlq-replay-v1", "X-Tickets-DLQ-", None,
    ["dlq.tickets.order-reservation.v1", "dlq.tickets.order-cancellation.v1"],
    ["orders.order.created.v1", "orders.order.canceled.v1"])

  const PAYMENTS: Policy := Policy(
    "payments-dlq-v1", "payments-dlq-replay-v1", "X-Payments-DLQ-", None,
    ["dlq.payments.order-projection.v1"],
    ["orders.order.created.v1", "orders.order.canceled.v1"])

  const MSG_ID := "Nats-Msg-Id"

  // ----- Text -----

  function Digit(n: nat): char
    requires n < 10
  {
    "0123456789"[n]
  }

  /** strconv.FormatUint(n, 10) */
  function Decimal(n: nat): string {
    if n < 10 then [Digit(n)] else Decimal(n / 10) + [Digit(n % 10)]
  }

  /** Line breaks become blanks. */
  function OneLine(s: string): string {
    seq(|s|, i requires 0 <= i < |s| => if s[i] == '\r' || s[i] == '\n' then ' ' else s[i])
  }

  /** Simple case folding, as far as letters of "Nats-Msg-Id" have other forms. */
  function Fold(c: char): char {
    if 'A' <= c <= 'Z' then c - 'A' + 'a'
    else if c == '\U{017F}' then 's'
    else c
  }

  /** strings.EqualFold */
  predicate EqualFold(a: string, b: string) {
    |a| == |b| && forall i | 0 <= i < |a| :: Fold(a[i]) == Fold(b[i])
  }

  function MessageId(prefix: string, stream: string, sequence: nat): string {
    prefix + ":" + stream + ":" + Decimal(sequence)
  }

  lemma DigitsDiffer(m: nat, n: nat)
    requires m < 10 && n < 10 && Digit(m) == Digit(n)
    ensures m == n
  {
  }

  lemma {:induction false} DecimalHasNoColon(n: nat)
    ensures ':' !in Decimal(n)
  {
    if n >= 10 {
      DecimalHasNoColon(n / 10);
    }
  }

  lemma {:induction false} DecimalIsInjective(m: nat, n: nat)
    requires Decimal(m) == Decimal(n)
    ensures m == n
    decreases m
  {
    assert Decimal(m)[|Decimal(m)| - 1] == Digit(m % 10);
    assert Decimal(n)[|Decimal(n)| - 1] == Digit(n % 10);
    DigitsDiffer(m % 10, n % 10);
    DecimalIsNotEmpty(m / 10);
    DecimalIsNotEmpty(n / 10);
    if m >= 10 && n >= 10 {
      assert Decimal(m / 10) == Decimal(m)[..|Decimal(m)| - 1];
      assert Decimal(n / 10) == Decimal(n)[..|Decimal(n)| - 1];
      DecimalIsInjective(m / 10, n / 10);
    }
  }

  lemma {:induction false} DecimalIsNotEmpty(n: nat)
    ensures |Decimal(n)| > 0
  {
  }

  /** The number a text of digits stands for in base ten. */
  function Value(s: string): int {
    if s == "" then 0 else 10 * Value(s[..|s| - 1]) + (s[|s| - 1] as int - '0' as int)
  }

  /** A number reads back from its digits, which are decimal digits without leading zeros. */
  lemma {:induction false} DecimalReadsBack(n: nat)
    ensures Value(Decimal(n)) == n
    ensures forall i | 0 <= i < |Decimal(n)| :: '0' <= Decimal(n)[i] <= '9'
    ensures n > 0 ==> Decimal(n)[0] != '0'
  {
    var s := Decimal(n);
    assert Value("") == 0;
    if n < 10 {
      assert s[..0] == "";
    } else {
      DecimalReadsBack(n / 10);
      assert s[..|s| - 1] == Decimal(n / 10);
    }
  }

  /** The last colon splits a text in one way only. */
  lemma LastColonSplits(a: string, x: string, b: string, y: string)
    requires a + ":" + x == b + ":" + y && ':' !in x && ':' !in y
    ensures a == b && x == y
  {
    var s := a + ":" + x;
    assert s[|a|] == ':' && s[|b|] == ':';
    forall k | |a| < k < |s|
      ensures s[k] != ':'
    {
      assert s[k] == x[k - |a| - 1];
    }
    forall k | |b| < k < |s|
      ensures s[k] != ':'
    {
      assert s[k] == y[k - |b| - 1];
    }
    assert |a| == |b|;
    assert a == s[..|a|] && b == s[..|b|];
    assert x == s[|a| + 1..] && y == s[|b| + 1..];
  }

  /** Two parked messages share a deduplication id only if they are the same message of the same
      stream, so the queue never takes one dead letter for another. */
  lemma MessageIdsAreUnique(prefix: string, stream: string, sequence: nat, stream': string, sequence': nat)
    requires MessageId(prefix, stream, sequence) == MessageId(prefix, stream', sequence')
    ensures stream == stream' && sequence == sequence'
  {
    DecimalHasNoColon(sequence);
    DecimalHasNoColon(sequence');
    var a, b := prefix + ":" + stream, prefix + ":" + stream';
    LastColonSplits(a, Decimal(sequence), b, Decimal(sequence'));
    assert stream == a[|prefix| + 1..] && stream' == b[|prefix| + 1..];
    DecimalIsInjective(sequence, sequence');
  }

  // ----- Parking and replaying -----

  /** A delivery that is given up. */
  datatype Letter = Letter(consumer: string, deliveryCount: nat, failureClass: string, failureReason: string,
                           original: Message, stream: string, sequence: nat, subject: string)

  function Parked(p: Policy, l: Letter, parkedAt: string): Message {
    var h0 := Put(l.original.headers, MSG_ID, MessageId(p.parkId, l.stream, l.sequence));
    var h1 := Put(h0, p.header + "Original-Subject", l.original.subject);
    var h2 := Put(h1, p.header + "Original-Stream", l.stream);
    var h3 := Put(h2, p.header + "Original-Stream-Sequence", Decimal(l.sequence));
    var h4 := Put(h3, p.header + "Consumer", l.consumer);
    var h5 := Put(h4, p.header + "Delivery-Count", Decimal(l.deliveryCount));
    var h6 := Put(h5, p.header + "Failure-Class", l.failureClass);
    var h7 := Put(h6, p.header + "Failure-Reason", OneLine(l.failureReason));
    var h8 := Put(h7, p.header + "Parked-At", parkedAt);
    Message(l.subject, h8, l.original.data)
  }

  /** Orders still reads the header an older release wrote. */
  function OriginalSubject(p: Policy, h: Headers): string {
    var subject := Get(h, p.header + "Original-Subject");
    if subject == "" && p.legacy.Some? then Get(h, p.legacy.value + "Original-Subject") else subject
  }

  predicate IsDeadLetterKey(p: Policy, key: string) {
    p.header <= key || (p.legacy.Some? && p.legacy.value <= key)
  }

  predicate Dropped(p: Policy, key: string) {
    IsDeadLetterKey(p, key) || EqualFold(key, MSG_ID)
  }

  datatype Replayed = Republished(message: Message) | NotADeadLetter | UnsupportedOriginal(subject: string)

  function Replay(p: Policy, m: Message, sequence: nat): Replayed {
    if m.subject !in p.deadLetterSubjects then NotADeadLetter
    else if OriginalSubject(p, m.headers) !in p.consumedSubjects then UnsupportedOriginal(OriginalSubject(p, m.headers))
    else
      var kept := map key | key in m.headers && !Dropped(p, key) :: m.headers[key];
      Republished(Message(OriginalSubject(p, m.headers), Put(kept, MSG_ID, p.replayId + ":" + Decimal(sequence)),
                          m.data))
  }

  predicate WellFormed(p: Policy) {
    "" !in p.consumedSubjects
  }

  /** Replaying a parked message restores its subject, its data, and exactly those of its headers
      that are neither dead letter headers nor a message id; the message id becomes the replay's. */
  lemma {:induction false} ParkThenReplay(p: Policy, l: Letter, parkedAt: string, sequence: nat)
    requires WellFormed(p) && l.subject in p.deadLetterSubjects && l.original.subject in p.consumedSubjects
    ensures var r := Replay(p, Parked(p, l, parkedAt), sequence);
            && r.Republished? && r.message.subject == l.original.subject && r.message.data == l.original.data
            && Get(r.message.headers, MSG_ID) == p.replayId + ":" + Decimal(sequence)
            && forall key | key != MSG_ID ::
                 (key in r.message.headers <==> key in l.original.headers && !Dropped(p, key))
                 && (key in r.message.headers ==> r.message.headers[key] == l.original.headers[key])
  {
    var h := Parked(p, l, parkedAt).headers;
    HeaderNamesDiffer(p);
    assert Get(h, p.header + "Original-Subject") == l.original.subject;
    forall key | !Dropped(p, key)
      ensures key in h <==> key in l.original.headers
      ensures key in h ==> h[key] == l.original.headers[key]
    {
      UndroppedIsUntouched(p, key);
    }
  }

  /** The keys Park writes carry the prefix, so a key without it is none of them. */
  lemma UndroppedIsUntouched(p: Policy, key: string)
    requires !Dropped(p, key)
    ensures key != MSG_ID
    ensures key !in {p.header + "Original-Subject", p.header + "Original-Stream", p.header + "Original-Stream-Sequence",
                     p.header + "Consumer", p.header + "Delivery-Count", p.header + "Failure-Class",
                     p.header + "Failure-Reason", p.header + "Parked-At"}
  {
    assert forall suffix: string :: p.header <= p.header + suffix;
  }

  /** What Park writes after the subject does not overwrite it. */
  lemma HeaderNamesDiffer(p: Policy)
    ensures p.header + "Original-Subject" !in {
              p.header + "Original-Stream", p.header + "Original-Stream-Sequence", p.header + "Consumer",
              p.header + "Delivery-Count", p.header + "Failure-Class", p.header + "Failure-Reason",
              p.header + "Parked-At"}
  {
    var n := |p.header|;
    assert (p.header + "Original-Subject")[n..] == "Original-Subject";
    assert (p.header + "Original-Stream")[n..] == "Original-Stream";
    assert (p.header + "Original-Stream-Sequence")[n..] == "Original-Stream-Sequence";
    assert (p.header + "Consumer")[n..] == "Consumer";
    assert (p.header + "Delivery-Count")[n..] == "Delivery-Count";
    assert (p.header + "Failure-Class")[n..] == "Failure-Class";
    assert (p.header + "Failure-Reason")[n..] == "Failure-Reason";
    assert (p.header + "Parked-At")[n..] == "Parked-At";
    assert "Original-Subject"[9] == 'S' && "Original-Stream"[9] == 'S' && "Original-Subject"[10] == 'u'
           && "Original-Stream"[10] == 't';
  }

  /** For headers free of dead letter keys nothing but the message id is lost. */
  lemma CleanHeadersSurvive(p: Policy, l: Letter, parkedAt: string, sequence: nat)
    requires WellFormed(p) && l.subject in p.deadLetterSubjects && l.original.subject in p.consumedSubjects
    requires forall key | key in l.original.headers :: !IsDeadLetterKey(p, key)
    ensures var r := Replay(p, Parked(p, l, parkedAt), sequence);
            r.Republished?
            && forall key | !EqualFold(key, MSG_ID) ::
                 (key in r.message.headers <==> key in l.original.headers)
                 && (key in r.message.headers ==> r.message.headers[key] == l.original.headers[key])
  {
    ParkThenReplay(p, l, parkedAt, sequence);
    assert EqualFold(MSG_ID, MSG_ID);
  }

  /** So it is at each of the three services: whatever was parked from a subject the service
      consumes comes back on that subject with its data and its own headers. */
  lemma {:induction false} EveryServiceReplaysWhatItParked(p: Policy, l: Letter, parkedAt: string, sequence: nat)
    requires p in {ORDERS, TICKETS, PAYMENTS}
    requires l.subject in p.deadLetterSubjects && l.original.subject in p.consumedSubjects
    requires forall key | key in l.original.headers :: !IsDeadLetterKey(p, key)
    ensures var r := Replay(p, Parked(p, l, parkedAt), sequence);
            && r.Republished? && r.message.subject == l.original.subject && r.message.data == l.original.data
            && Get(r.message.headers, MSG_ID) == p.replayId + ":" + Decimal(sequence)
            && forall key | !EqualFold(key, MSG_ID) ::
                 (key in r.message.headers <==> key in l.original.headers)
                 && (key in r.message.headers ==> r.message.headers[key] == l.original.headers[key])
  {
    hide Replay, Parked, EqualFold, IsDeadLetterKey, Dropped, Get, Decimal;
    PoliciesAreWellFormed();
    ParkThenReplay(p, l, parkedAt, sequence);
    CleanHeadersSurvive(p, l, parkedAt, sequence);
  }

  lemma PoliciesAreWellFormed()
    ensures WellFormed(ORDERS) && WellFormed(TICKETS) && WellFormed(PAYMENTS)
  {
    assert "tickets.ticket.created.v1" != "";
  }

  // ----- What a dead letter tells, and what is replayed -----

  const SUFFIXES: seq<string> := ["Original-Subject", "Original-Stream", "Original-Stream-Sequence", "Consumer",
                                  "Delivery-Count", "Failure-Class", "Failure-Reason", "Parked-At"]

  lemma SuffixesDiffer(i: nat, j: nat)
    requires i < j < 8
    ensures SUFFIXES[i] != SUFFIXES[j]
  {
    assert |"Original-Subject"| == 16 && |"Original-Stream"| == 15 && |"Original-Stream-Sequence"| == 24
           && |"Consumer"| == 8;
    assert |"Delivery-Count"| == 14 && |"Failure-Class"| == 13 && |"Failure-Reason"| == 14 && |"Parked-At"| == 9;
    assert "Delivery-Count"[0] == 'D' && "Failure-Reason"[0] == 'F';
  }

  lemma KeysDiffer(prefix: string, a: string, b: string)
    requires a != b
    ensures prefix + a != prefix + b
  {
    assert (prefix + a)[|prefix|..] == a && (prefix + b)[|prefix|..] == b;
  }

  /** The message id ends in a letter that no header of the queue ends in. */
  lemma NoKeyIsMessageId(prefix: string, i: nat)
    requires i < 8
    ensures prefix + SUFFIXES[i] != MSG_ID
  {
    var key := prefix + SUFFIXES[i];
    assert |SUFFIXES[i]| > 0 && key[|key| - 1] == SUFFIXES[i][|SUFFIXES[i]| - 1];
    assert MSG_ID[|MSG_ID| - 1] == 'd';
    assert "Original-Subject"[15] == 't' && "Original-Stream"[14] == 'm' && "Original-Stream-Sequence"[23] == 'e';
    assert "Consumer"[7] == 'r' && "Delivery-Count"[13] == 't' && "Failure-Class"[12] == 's';
    assert "Failure-Reason"[13] == 'n' && "Parked-At"[8] == 't';
  }

  /** What a dead letter says under each of the queue's own headers. */
  function Told(l: Letter, parkedAt: string): seq<string> {
    [l.original.subject, l.stream, Decimal(l.sequence), l.consumer, Decimal(l.deliveryCount), l.failureClass,
     OneLine(l.failureReason), parkedAt]
  }

  /** The first `n` headers written, one after the other. */
  function Written(p: Policy, h: Headers, told: seq<string>, n: nat): Headers
    requires n <= 8 && |told| == 8
  {
    if n == 0 then h else Put(Written(p, h, told, n - 1), p.header + SUFFIXES[n - 1], told[n - 1])
  }

  lemma {:induction false} WrittenTells(p: Policy, h: Headers, told: seq<string>, n: nat)
    requires n <= 8 && |told| == 8
    ensures forall i: nat | i < n :: p.header + SUFFIXES[i] in Written(p, h, told, n)
    ensures forall i: nat | i < n :: Written(p, h, told, n)[p.header + SUFFIXES[i]] == [told[i]]
    ensures forall key | (forall i: nat | i < n :: key != p.header + SUFFIXES[i]) ::
              (key in Written(p, h, told, n) <==> key in h) && (key in h ==> Written(p, h, told, n)[key] == h[key])
  {
    if n > 0 {
      WrittenTells(p, h, told, n - 1);
      forall i: nat | i < n - 1
        ensures p.header + SUFFIXES[i] != p.header + SUFFIXES[n - 1]
      {
        SuffixesDiffer(i, n - 1);
        KeysDiffer(p.header, SUFFIXES[i], SUFFIXES[n - 1]);
      }
    }
  }

  lemma {:induction false} ParkedIsWritten(p: Policy, l: Letter, parkedAt: string)
    ensures Parked(p, l, parkedAt).headers
            == Written(p, Put(l.original.headers, MSG_ID, p.parkId + ":" + l.stream + ":" + Decimal(l.sequence)),
                       Told(l, parkedAt), 8)
  {
    var h := Put(l.original.headers, MSG_ID, p.parkId + ":" + l.stream + ":" + Decimal(l.sequence));
    var told := Told(l, parkedAt);
    assert Written(p, h, told, 0) == h;
    assert Written(p, h, told, 2) == Put(Written(p, h, told, 1), p.header + SUFFIXES[1], told[1]);
    assert Written(p, h, told, 4) == Put(Written(p, h, told, 3), p.header + SUFFIXES[3], told[3]);
    assert Written(p, h, told, 6) == Put(Written(p, h, told, 5), p.header + SUFFIXES[5], told[5]);
  }

  /** A dead letter goes to the queue's subject with the original data, under an id made of the
      queue, the stream and the position; it tells where it came from, whose it was and why, each
      under its own header, and keeps every other header of the original. */
  lemma DeadLetterTells(p: Policy, l: Letter, parkedAt: string)
    ensures var m := Parked(p, l, parkedAt);
            && m.subject == l.subject && m.data == l.original.data
            && Get(m.headers, "Nats-Msg-Id") == p.parkId + ":" + l.stream + ":" + Decimal(l.sequence)
            && (forall i: nat | i < 8 :: Get(m.headers, p.header + SUFFIXES[i]) == Told(l, parkedAt)[i])
            && (forall key | key != "Nats-Msg-Id" && (forall i: nat | i < 8 :: key != p.header + SUFFIXES[i]) ::
                  (key in m.headers <==> key in l.original.headers)
                  && (key in m.headers ==> m.headers[key] == l.original.headers[key]))
  {
    hide Parked, Written, Told, OneLine, Decimal;
    ParkedIsWritten(p, l, parkedAt);
    LetterSubject(p, l, parkedAt);
    var h := Put(l.original.headers, MSG_ID, p.parkId + ":" + l.stream + ":" + Decimal(l.sequence));
    var told := Told(l, parkedAt);
    ToldLength(l, parkedAt);
    WrittenTells(p, h, told, 8);
    forall i: nat | i < 8
      ensures p.header + SUFFIXES[i] != MSG_ID
    {
      NoKeyIsMessageId(p.header, i);
    }
  }

  lemma LetterSubject(p: Policy, l: Letter, parkedAt: string)
    ensures Parked(p, l, parkedAt).subject == l.subject && Parked(p, l, parkedAt).data == l.original.data
  {
  }

  lemma ToldLength(l: Letter, parkedAt: string)
    ensures |Told(l, parkedAt)| == 8
  {
  }

  /** Two dead letters of a queue with the same id are of the same message of the same stream. */
  lemma DeadLettersAreTheirOwn(p: Policy, l: Letter, l': Letter, parkedAt: string, parkedAt': string)
    requires Get(Parked(p, l, parkedAt).headers, "Nats-Msg-Id") == Get(Parked(p, l', parkedAt').headers, "Nats-Msg-Id")
    ensures l.stream == l'.stream && l.sequence == l'.sequence
  {
    hide Parked;
    DeadLetterTells(p, l, parkedAt);
    DeadLetterTells(p, l', parkedAt');
    MessageIdsAreUnique(p.parkId, l.stream, l.sequence, l'.stream, l'.sequence);
  }

  /** The reason is one line, and otherwise unchanged. */
  lemma ReasonIsOneLine(reason: string)
    ensures |OneLine(reason)| == |reason| && '\n' !in OneLine(reason) && '\r' !in OneLine(reason)
    ensures forall i | 0 <= i < |reason| && reason[i] != '\n' && reason[i] != '\r' :: OneLine(reason)[i] == reason[i]
  {
  }

  /** Nothing is replayed but a message of the queue, and nowhere but to a subject the service
      consumes: the one the letter names, or else, at Orders, the one an older letter names. */
  lemma ReplayAnswers(p: Policy, m: Message, sequence: nat)
    ensures var named := Get(m.headers, p.header + "Original-Subject");
            var original := if named == "" && p.legacy.Some? then Get(m.headers, p.legacy.value + "Original-Subject")
              else named;
            if m.subject !in p.deadLetterSubjects then Replay(p, m, sequence) == NotADeadLetter
            else if original !in p.consumedSubjects then Replay(p, m, sequence) == UnsupportedOriginal(original)
            else Replay(p, m, sequence).Republished? && Replay(p, m, sequence).message.subject == original
                 && Replay(p, m, sequence).message.data == m.data
  {
  }

  /** A replayed message carries one message id, its new one, and nothing of the queue. */
  lemma {:induction false} ReplayLeavesNothingOfTheQueue(p: Policy, m: Message, sequence: nat, key: string)
    requires Replay(p, m, sequence).Republished? && key in Replay(p, m, sequence).message.headers
    ensures key == "Nats-Msg-Id" ==>
              Replay(p, m, sequence).message.headers[key] == [p.replayId + ":" + Decimal(sequence)]
    ensures key != "Nats-Msg-Id" ==>
              && key in m.headers && Replay(p, m, sequence).message.headers[key] == m.headers[key]
              && !EqualFold(key, "Nats-Msg-Id") && !(p.header <= key) && (p.legacy.Some? ==> !(p.legacy.value <= key))
  {
  }

  // ----- The loops -----

  class DeadLetterer {
    const policy: Policy

    constructor (policy: Policy)
      ensures this.policy == policy
    {
      this.policy := policy;
    }

    method CloneHeaders(headers: Headers) returns (clone: Headers)
      ensures clone == headers
    {
      clone := map[];
      var keys := headers.Keys;
      while keys != {}
        invariant keys <= headers.Keys && clone == map key | key in headers && key !in keys :: headers[key]
        decreases keys
      {
        var key :| key in keys;
        clone := clone[key := headers[key]];
        keys := keys - {key};
      }
    }

    method Park(l: Letter, parkedAt: string) returns (published: Message)
      ensures published == Parked(policy, l, parkedAt)
    {
      var headers := CloneHeaders(l.original.headers);
      headers := Put(headers, MSG_ID, MessageId(policy.parkId, l.stream, l.sequence));
      headers := Put(headers, policy.header + "Original-Subject", l.original.subject);
      headers := Put(headers, policy.header + "Original-Stream", l.stream);
      headers := Put(headers, policy.header + "Original-Stream-Sequence", Decimal(l.sequence));
      headers := Put(headers, policy.header + "Consumer", l.consumer);
      headers := Put(headers, policy.header + "Delivery-Count", Decimal(l.deliveryCount));
      headers := Put(headers, policy.header + "Failure-Class", l.failureClass);
      headers := Put(headers, policy.header + "Failure-Reason", OneLine(l.failureReason));
      headers := Put(headers, policy.header + "Parked-At", parkedAt);
      return Message(l.subject, headers, l.original.data);
    }

    method ReplayDeadLetter(m: Message, sequence: nat) returns (r: Replayed)
      ensures r == Replay(policy, m, sequence)
    {
      if m.subject !in policy.deadLetterSubjects {
        return NotADeadLetter;
      }
      var subject := OriginalSubject(policy, m.headers);
      if subject !in policy.consumedSubjects {
        return UnsupportedOriginal(subject);
      }
      var headers: Headers := map[];
      var keys := m.headers.Keys;
      while keys != {}
        invariant keys <= m.headers.Keys
        invariant headers == map key | key in m.headers && key !in keys && !Dropped(policy, key) :: m.headers[key]
        decreases keys
      {
        var key :| key in keys;
        keys := keys - {key};
        if !Dropped(policy, key) {
          headers := headers[key := m.headers[key]];
        }
      }
      headers := Put(headers, MSG_ID, policy.replayId + ":" + Decimal(sequence));
      return Republished(Message(subject, headers, m.data));
    }

    /** The subjects an existing dead letter stream is updated to, None when it is complete. */
    method MergeSubjects(existing: seq<string>) returns (update: Option<seq<string>>)
      ensures update.None? <==> forall s | s in policy.deadLetterSubjects :: s in existing
      ensures update.Some? ==>
                existing < update.value
                && forall s :: s in update.value <==> s in existing || s in policy.deadLetterSubjects
      ensures update.Some? && NoDuplicates(existing) && NoDuplicates(policy.deadLetterSubjects) ==>
              NoDuplicates(update.value)
    {
      var configured := set s | s in existing;
      var updated := existing;
      for i := 0 to |policy.deadLetterSubjects|
        invariant existing <= updated
        invariant forall s :: s in updated <==> s in existing || s in policy.deadLetterSubjects[..i]
        invariant |updated| == |existing| <==> forall s | s in policy.deadLetterSubjects[..i] :: s in existing
        invariant NoDuplicates(existing) && NoDuplicates(policy.deadLetterSubjects) ==> NoDuplicates(updated)
      {
        var subject := policy.deadLetterSubjects[i];
        assert policy.deadLetterSubjects[..i + 1] == policy.deadLetterSubjects[..i] + [subject];
        if subject !in configured {
          updated := updated + [subject];
        }
      }
      assert policy.deadLetterSubjects[..|policy.deadLetterSubjects|] == policy.deadLetterSubjects;
      if |updated| == |existing| {
        return None;
      }
      return Some(updated);
    }
  }

  ghost predicate NoDuplicates(s: seq<string>) {
    forall i, j | 0 <= i < j < |s| :: s[i] != s[j]
  }
}
