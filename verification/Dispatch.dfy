/** Any number of publishers at work on the outboxes at once, each step of each pass interleaved
    with everything else: leases may expire under a pass, two passes may hold the same row, and a
    publisher may die between publishing an event and marking its row.  Still no event is lost. */
module Dispatch {
  import opened Events
  import opened Consumers
  import opened World
  import opened Outbox
  import Growth
  import Publisher
  import Saga

  datatype Tables = Tables(tickets: seq<Row>, orders: seq<Row>, payments: seq<Row>)

  /** What a publisher remembers of its pass: the rows still to do, and, once it has sent the
      first of them, whether the broker acknowledged it. */
  datatype Flight = Flight(src: Source, batch: seq<nat>, sent: Option<bool>)

  datatype Plant = Plant(world: World, tables: Tables, flights: map<nat, Flight>)

  datatype Activity =
    | Elsewhere(happening: Happening)
    | Begin(id: nat, src: Source, at: int, skip: set<nat>, batch: seq<nat>)
    | Send(id: nat, reply: Publisher.Reply)
    | Mark(id: nat, at: int, marks: bool)
    | Leave(id: nat)

  function Opened(now: int): Plant {
    Plant(Start(now), Tables([], [], []), map[])
  }

  function Table(t: Tables, src: Source): seq<Row> {
    match src
    case TicketStream => t.tickets
    case OrderStream => t.orders
    case PaymentStream => t.payments
    case ExpirationStream => []
  }

  function SetTable(t: Tables, src: Source, rows: seq<Row>): Tables {
    match src
    case TicketStream => t.(tickets := rows)
    case OrderStream => t.(orders := rows)
    case PaymentStream => t.(payments := rows)
    case ExpirationStream => t
  }

  /** The rows that the transactions of a service have added. */
  function Extended(rows: seq<Row>, log: seq<Event>): (longer: seq<Row>)
    ensures rows <= longer && |longer| == if |log| <= |rows| then |rows| else |log|
    ensures forall i | |rows| <= i < |longer| :: longer[i] == NewRow(log[i])
    decreases |log| - |rows|
  {
    if |log| <= |rows| then rows else Extended(rows + [NewRow(log[|rows|])], log)
  }

  predicate Busy(p: Plant, id: nat) {
    && id in p.flights && p.flights[id].batch != []
    && p.flights[id].batch[0] < |Table(p.tables, p.flights[id].src)|
  }

  /** The outbox publishes and marks by its own steps and by no others.  Marking asks nothing of
      the stream: only the publisher's memory says that the event was acknowledged. */
  ghost predicate Admissible(p: Plant, a: Activity) {
    match a
    case Elsewhere(h) => !h.Accept? && !h.MarkPublished?
    case Begin(id, src, at, skip, batch) => id !in p.flights
      && IsClaim(Table(p.tables, src), at, BATCH_SIZE, skip, batch)
    case Send(id, reply) => Busy(p, id) && p.flights[id].sent.None? && Publisher.Honest(reply)
    case Mark(id, _, _) => Busy(p, id) && p.flights[id].sent.Some?
    case Leave(id) => id in p.flights
  }

  ghost function Perform(p: Plant, a: Activity): Plant
    requires Admissible(p, a)
  {
    match a
    case Elsewhere(h) =>
      var w := Progress(p.world, h);
      Plant(w, Tables(Extended(p.tables.tickets, w.core.tickets.outbox),
                      Extended(p.tables.orders, w.core.orders.outbox),
                      Extended(p.tables.payments, w.core.payments.outbox)), p.flights)
    case Begin(id, src, at, _, batch) =>
      p.(tables := SetTable(p.tables, src, Locked(Table(p.tables, src), batch, at + LEASE)),
         flights := p.flights[id := Flight(src, batch, None)])
    case Send(id, reply) =>
      var f := p.flights[id];
      var e := Table(p.tables, f.src)[f.batch[0]].event;
      var taken := reply.accepted && !(reply.dropped && e in Stream(p.world.streams, f.src));
      p.(world := if taken then p.world.(streams := Append(p.world.streams, f.src, e)) else p.world,
         flights := p.flights[id := f.(sent := Some(reply.acknowledged))])
    case Mark(id, at, marks) =>
      var f := p.flights[id];
      var rows := Table(p.tables, f.src);
      var pos := f.batch[0];
      if !marks then p.(flights := p.flights - {id})
      else if !f.sent.value then
        p.(tables := SetTable(p.tables, f.src, rows[pos := FailedRow(rows[pos], at)]), flights := p.flights - {id})
      else
        Plant(p.world.(published := p.world.published + {(f.src, pos)}),
              SetTable(p.tables, f.src, rows[pos := Published(rows[pos], at)]),
              p.flights[id := Flight(f.src, f.batch[1..], None)])
    case Leave(id) => p.(flights := p.flights - {id})
  }

  ghost function Step(p: Plant, a: Activity): Plant {
    if Admissible(p, a) then Perform(p, a) else p
  }

  ghost function Operation(now: int, activities: seq<Activity>): Plant {
    if activities == [] then Opened(now)
    else Step(Operation(now, activities[..|activities| - 1]), activities[|activities| - 1])
  }

  // ----- What holds at every moment -----

  /** Every table is the log of its service, and published_at is what the World machine knows. */
  ghost predicate Matches(p: Plant) {
    forall src :: Publisher.Shows(p.world, src, Table(p.tables, src), Stream(p.world.streams, src))
  }

  ghost predicate FlightSound(p: Plant, f: Flight) {
    && (forall i | 0 <= i < |f.batch| :: f.batch[i] < |Table(p.tables, f.src)|)
    && (f.sent == Some(true) && f.batch != [] ==>
        Table(p.tables, f.src)[f.batch[0]].event in Stream(p.world.streams, f.src))
  }

  ghost predicate FlightsSound(p: Plant) {
    forall id | id in p.flights :: FlightSound(p, p.flights[id])
  }

  /** Rows keep their events and their place, and streams only grow. */
  ghost predicate Onward(p: Plant, p': Plant) {
    forall src ::
      && |Table(p.tables, src)| <= |Table(p'.tables, src)|
      && (forall i | 0 <= i < |Table(p.tables, src)| :: Table(p'.tables, src)[i].event == Table(p.tables, src)[i].event)
      && Stream(p.world.streams, src) <= Stream(p'.world.streams, src)
  }

  lemma FlightStaysSound(p: Plant, p': Plant, f: Flight)
    requires Onward(p, p') && FlightSound(p, f)
    ensures FlightSound(p', f)
  {
  }

  // ----- Every activity keeps it -----

  /** The activity is nothing or one happening of the World machine, and keeps the tables true. */
  ghost predicate Sound(p: Plant, p': Plant) {
    && (p'.world == p.world || exists h :: p'.world == Progress(p.world, h))
    && Matches(p') && FlightsSound(p')
  }

  lemma HappeningFacts(w: World, h: Happening)
    requires !h.Accept? && !h.MarkPublished?
    ensures Progress(w, h).published == w.published
    ensures forall src :: Log(w.core, src) <= Log(Progress(w, h).core, src)
    ensures forall src :: Stream(w.streams, src) <= Stream(Progress(w, h).streams, src)
  {
    hide Saga.Next, Saga.Enabled, Settle, Answer;
    ProgressIsSagaStep(w, h);
    if Progress(w, h).core != w.core {
      var s :| Progress(w, h).core == Saga.Next(w.core, s);
      Growth.NextGrows(w.core, s);
    }
  }

  lemma {:induction false} ExtendedShows(w: World, w': World, src: Source, rows: seq<Row>)
    requires Publisher.Shows(w, src, rows, Stream(w.streams, src))
    requires w'.published == w.published && Log(w.core, src) <= Log(w'.core, src)
    ensures Publisher.Shows(w', src, Extended(rows, Log(w'.core, src)), Stream(w'.streams, src))
  {
    var log, rows' := Log(w'.core, src), Extended(rows, Log(w'.core, src));
    forall i | 0 <= i < |rows'|
      ensures log[i] == rows'[i].event
      ensures rows'[i].publishedAt.Some? <==> i < |rows| && rows[i].publishedAt.Some?
    {
      if i < |rows| {
        assert Log(w.core, src)[i] == rows[i].event;
      }
    }
  }

  lemma ElsewhereIsSound(p: Plant, h: Happening)
    requires Matches(p) && FlightsSound(p) && !h.Accept? && !h.MarkPublished?
    ensures Sound(p, Perform(p, Elsewhere(h)))
  {
    hide Progress, Publisher.Shows, Extended, FlightSound;
    var p' := Perform(p, Elsewhere(h));
    HappeningFacts(p.world, h);
    forall src
      ensures Publisher.Shows(p'.world, src, Table(p'.tables, src), Stream(p'.world.streams, src))
      ensures Table(p'.tables, src) == Extended(Table(p.tables, src), Log(p'.world.core, src))
    {
      ExtendedShows(p.world, p'.world, src, Table(p.tables, src));
      NothingExtended();
    }
    ExtendedIsOnward(p, p');
    FlightsStaySound(p, p');
  }

  lemma NothingExtended()
    ensures Extended([], []) == []
  {
  }

  lemma ExtendedIsOnward(p: Plant, p': Plant)
    requires forall src :: Table(p'.tables, src) == Extended(Table(p.tables, src), Log(p'.world.core, src))
    requires forall src :: Stream(p.world.streams, src) <= Stream(p'.world.streams, src)
    ensures Onward(p, p')
  {
  }

  lemma FlightsStaySound(p: Plant, p': Plant)
    requires FlightsSound(p) && Onward(p, p') && p'.flights.Keys <= p.flights.Keys
    requires forall id | id in p'.flights :: p'.flights[id] == p.flights[id]
    ensures FlightsSound(p')
  {
    hide FlightSound, Onward;
    forall id | id in p'.flights
      ensures FlightSound(p', p'.flights[id])
    {
      FlightStaysSound(p, p', p.flights[id]);
    }
  }

  lemma FlightChanges(p: Plant, p': Plant, id: nat, f: Flight)
    requires FlightsSound(p) && Onward(p, p') && p'.flights == p.flights[id := f] && FlightSound(p', f)
    ensures FlightsSound(p')
  {
    hide FlightSound, Onward;
    forall x | x in p'.flights
      ensures FlightSound(p', p'.flights[x])
    {
      if x != id {
        FlightStaysSound(p, p', p.flights[x]);
      }
    }
  }

  lemma BeginIsSound(p: Plant, id: nat, src: Source, at: int, skip: set<nat>, batch: seq<nat>)
    requires Matches(p) && FlightsSound(p) && Admissible(p, Begin(id, src, at, skip, batch))
    ensures Sound(p, Perform(p, Begin(id, src, at, skip, batch)))
  {
    var p' := Perform(p, Begin(id, src, at, skip, batch));
    forall x
      ensures Publisher.Shows(p'.world, x, Table(p'.tables, x), Stream(p'.world.streams, x))
    {
      assert Publisher.Shows(p.world, x, Table(p.tables, x), Stream(p.world.streams, x));
    }
    FlightChanges(p, p', id, Flight(src, batch, None));
  }

  lemma SendIsSound(p: Plant, id: nat, reply: Publisher.Reply)
    requires Matches(p) && FlightsSound(p) && Admissible(p, Send(id, reply))
    ensures Sound(p, Perform(p, Send(id, reply)))
  {
    var p' := Perform(p, Send(id, reply));
    var f := p.flights[id];
    var pos := f.batch[0];
    assert FlightSound(p, f) && Publisher.Shows(p.world, f.src, Table(p.tables, f.src), Stream(p.world.streams, f.src));
    assert p'.world == p.world || p'.world == Progress(p.world, Accept(f.src, pos, false));
    forall x
      ensures Publisher.Shows(p'.world, x, Table(p'.tables, x), Stream(p'.world.streams, x))
    {
      assert Publisher.Shows(p.world, x, Table(p.tables, x), Stream(p.world.streams, x));
    }
    FlightChanges(p, p', id, f.(sent := Some(reply.acknowledged)));
  }

  lemma MarkIsSound(p: Plant, id: nat, at: int, marks: bool)
    requires Matches(p) && FlightsSound(p) && Admissible(p, Mark(id, at, marks))
    ensures Sound(p, Perform(p, Mark(id, at, marks)))
  {
    hide Publisher.Shows, Onward, FlightSound, Progress;
    var p' := Perform(p, Mark(id, at, marks));
    var f := p.flights[id];
    assert FlightSound(p, f);
    if marks && f.sent.value {
      PublishedShows(p, p', f, at);
      FlightChanges(p, p', id, Flight(f.src, f.batch[1..], None));
    } else {
      FailedShows(p, p', f, at);
      FlightsStaySound(p, p');
    }
  }

  /** Only here is the guard of the World machine met: the acknowledged event is on the stream. */
  lemma PublishedShows(p: Plant, p': Plant, f: Flight, at: int)
    requires Matches(p) && FlightSound(p, f) && f.batch != [] && f.sent == Some(true)
    requires var rows := Table(p.tables, f.src); var pos := f.batch[0];
             && p'.tables == SetTable(p.tables, f.src, rows[pos := Published(rows[pos], at)])
             && p'.world == p.world.(published := p.world.published + {(f.src, pos)})
    ensures p'.world == Progress(p.world, Happening.MarkPublished(f.src, f.batch[0]))
    ensures Matches(p') && Onward(p, p') && FlightSound(p', Flight(f.src, f.batch[1..], None))
  {
    assert Publisher.Shows(p.world, f.src, Table(p.tables, f.src), Stream(p.world.streams, f.src));
    forall x
      ensures Publisher.Shows(p'.world, x, Table(p'.tables, x), Stream(p'.world.streams, x))
    {
      assert Publisher.Shows(p.world, x, Table(p.tables, x), Stream(p.world.streams, x));
    }
  }

  lemma FailedShows(p: Plant, p': Plant, f: Flight, at: int)
    requires Matches(p) && FlightSound(p, f) && f.batch != [] && p'.world == p.world
    requires var rows := Table(p.tables, f.src); var pos := f.batch[0];
             p'.tables == p.tables || p'.tables == SetTable(p.tables, f.src, rows[pos := FailedRow(rows[pos], at)])
    ensures Matches(p') && Onward(p, p')
  {
    forall x
      ensures Publisher.Shows(p'.world, x, Table(p'.tables, x), Stream(p'.world.streams, x))
    {
      assert Publisher.Shows(p.world, x, Table(p.tables, x), Stream(p.world.streams, x));
    }
  }

  lemma StepIsSound(p: Plant, a: Activity)
    requires Matches(p) && FlightsSound(p)
    ensures Sound(p, Step(p, a))
  {
    hide Matches, FlightsSound, Perform, Progress;
    if Admissible(p, a) {
      match a {
        case Elsewhere(h) => ElsewhereIsSound(p, h);
        case Begin(id, src, at, skip, batch) => BeginIsSound(p, id, src, at, skip, batch);
        case Send(id, reply) => SendIsSound(p, id, reply);
        case Mark(id, at, marks) => MarkIsSound(p, id, at, marks);
        case Leave(id) => LeaveIsSound(p, id);
      }
    }
  }

  lemma LeaveIsSound(p: Plant, id: nat)
    requires Matches(p) && FlightsSound(p) && id in p.flights
    ensures Sound(p, Perform(p, Leave(id)))
  {
    hide Publisher.Shows, FlightSound;
    FlightsStaySound(p, Perform(p, Leave(id)));
  }

  // ----- The guarantee -----

  /** Whatever the publishers do, the world between the databases runs the World machine; so its
      guard, that only what is on the stream is marked published, need not be asked for. */
  lemma {:induction false} OperationIsACourse(now: int, activities: seq<Activity>) returns (hs: seq<Happening>)
    ensures Course(now, hs) == Operation(now, activities).world
    ensures Matches(Operation(now, activities)) && FlightsSound(Operation(now, activities))
  {
    hide Matches, FlightsSound, Progress, Step;
    if activities == [] {
      hs := [];
      OpenedMatches(now);
    } else {
      var before := Operation(now, activities[..|activities| - 1]);
      hs := OperationIsACourse(now, activities[..|activities| - 1]);
      StepIsSound(before, activities[|activities| - 1]);
      var after := Operation(now, activities);
      if after.world != before.world {
        var h :| after.world == Progress(before.world, h);
        hs := hs + [h];
        assert hs[..|hs| - 1] + [h] == hs;
      }
    }
  }

  lemma OpenedMatches(now: int)
    ensures Matches(Opened(now)) && FlightsSound(Opened(now))
  {
  }

  /** In every operation of any number of publishers, an event committed with a state change is in
      its outbox table, and it is unpublished there, or it is on its stream; and every copy on the
      stream is, for every subscribed consumer, pending, processed there, or parked. */
  lemma {:induction false} NoEventIsLostByPublishers(now: int, activities: seq<Activity>, src: Source, row: nat,
                                                     d: Durable)
    requires var p := Operation(now, activities);
             row < |Log(p.world.core, src)| && SourceOf(d) == src && Subscribed(d, Log(p.world.core, src)[row])
    ensures var p := Operation(now, activities); var e := Log(p.world.core, src)[row]; var rows := Table(p.tables, src);
            && |rows| == |Log(p.world.core, src)| && rows[row].event == e
            && (rows[row].publishedAt.None?
                || exists pos :: 0 <= pos < |Stream(p.world.streams, src)| && Stream(p.world.streams, src)[pos] == e)
            && forall pos | 0 <= pos < |Stream(p.world.streams, src)| && Stream(p.world.streams, src)[pos] == e ::
                 Accounted(p.world, d, pos)
  {
    hide Operation, FlightsSound, Course, Accounted;
    var hs := OperationIsACourse(now, activities);
    var p := Operation(now, activities);
    assert Publisher.Shows(p.world, src, Table(p.tables, src), Stream(p.world.streams, src));
    NoEventIsLost(now, hs, src, row, d);
  }

  // ----- One pass among the others -----

  ghost function StepAll(p: Plant, activities: seq<Activity>): Plant
    decreases |activities|
  {
    if activities == [] then p else StepAll(Step(p, activities[0]), activities[1..])
  }

  /** Nothing but the table and the stream of `src`, and the outbox's own books, may differ. */
  ghost predicate Changed(p: Plant, p': Plant, src: Source, rows: seq<Row>, stream: seq<Event>) {
    && p'.tables == SetTable(p.tables, src, rows) && Table(p'.tables, src) == rows
    && p'.world.core == p.world.core && Stream(p'.world.streams, src) == stream
    && forall x | x != src :: Stream(p'.world.streams, x) == Stream(p.world.streams, x)
  }

  lemma SendAndMark(p: Plant, id: nat, r: Publisher.Reply)
    requires Busy(p, id) && p.flights[id].sent.None? && Publisher.Honest(r)
    ensures var f := p.flights[id]; var rows := Table(p.tables, f.src); var pos := f.batch[0];
            var p' := Step(Step(p, Send(id, r)), Mark(id, r.at, r.marks));
            && Changed(p, p', f.src,
                       if !r.marks then rows
                       else if r.acknowledged then rows[pos := Published(rows[pos], r.at)]
                       else rows[pos := FailedRow(rows[pos], r.at)],
                       Publisher.Accepted(Stream(p.world.streams, f.src), rows[pos].event, r))
            && (r.acknowledged && r.marks ==> id in p'.flights && p'.flights[id] == Flight(f.src, f.batch[1..], None))
  {
    hide Progress;
    var p1 := Step(p, Send(id, r));
    assert Admissible(p1, Mark(id, r.at, r.marks));
  }

  lemma ChangedTransitive(p: Plant, p1: Plant, p2: Plant, src: Source, rows1: seq<Row>, stream1: seq<Event>,
                          rows: seq<Row>, stream: seq<Event>)
    requires Changed(p, p1, src, rows1, stream1) && Changed(p1, p2, src, rows, stream)
    ensures Changed(p, p2, src, rows, stream)
  {
  }

  /** Undisturbed, the steps of one publisher add up to what publishPending does in its loop. */
  lemma {:induction false} LoopIsAnOperation(p: Plant, id: nat, src: Source, batch: seq<nat>,
                                             replies: seq<Publisher.Reply>)
    returns (activities: seq<Activity>)
    requires id in p.flights && p.flights[id] == Flight(src, batch, None)
    requires Publisher.InTable(Table(p.tables, src), batch)
    requires |replies| >= |batch| && forall i | 0 <= i < |batch| :: Publisher.Honest(replies[i])
    ensures var r := Publisher.Pass(Table(p.tables, src), Stream(p.world.streams, src), batch, replies);
            Changed(p, StepAll(p, activities), src, r.rows, r.stream)
    decreases |batch|
  {
    hide Step, StepAll, Changed;
    if batch == [] {
      activities := [];
      NothingDone(p, src);
    } else {
      assert Publisher.Honest(replies[0]);
      SendAndMark(p, id, replies[0]);
      var first := [Send(id, replies[0]), Mark(id, replies[0].at, replies[0].marks)];
      var p1 := Step(Step(p, first[0]), first[1]);
      StepTwo(p, first[0], first[1], []);
      activities := first;
      if replies[0].acknowledged && replies[0].marks {
        var pos := batch[0];
        var rows := Table(p.tables, src);
        var rows1 := rows[pos := Published(rows[pos], replies[0].at)];
        var stream1 := Publisher.Accepted(Stream(p.world.streams, src), rows[pos].event, replies[0]);
        ChangedShows(p, p1, src, rows1, stream1);
        var rest := LoopIsAnOperation(p1, id, src, batch[1..], replies[1..]);
        StepTwo(p, first[0], first[1], rest);
        activities := first + rest;
        var r := Publisher.Pass(rows1, stream1, batch[1..], replies[1..]);
        ChangedTransitive(p, p1, StepAll(p, activities), src, rows1, stream1, r.rows, r.stream);
      }
    }
  }

  lemma {:induction false} NothingDone(p: Plant, src: Source)
    ensures Changed(p, StepAll(p, []), src, Table(p.tables, src), Stream(p.world.streams, src))
  {
  }

  lemma ChangedShows(p: Plant, p': Plant, src: Source, rows: seq<Row>, stream: seq<Event>)
    requires Changed(p, p', src, rows, stream)
    ensures Table(p'.tables, src) == rows && Stream(p'.world.streams, src) == stream
  {
  }

  lemma {:induction false} StepTwo(p: Plant, a: Activity, b: Activity, rest: seq<Activity>)
    ensures StepAll(p, [a, b] + rest) == StepAll(Step(Step(p, a), b), rest)
    ensures rest == [] ==> StepAll(p, [a, b]) == Step(Step(p, a), b)
  {
    hide Step;
    assert rest == [] ==> [a, b] + rest == [a, b];
    assert ([a, b] + rest)[1..] == [b] + rest && ([b] + rest)[1..] == rest;
  }

  /** publishPending with its claim, as class Publisher carries it out, is such an operation. */
  lemma PublishPendingIsAnOperation(p: Plant, id: nat, src: Source, at: int, skip: set<nat>, batch: seq<nat>,
                                    replies: seq<Publisher.Reply>) returns (activities: seq<Activity>)
    requires id !in p.flights && IsClaim(Table(p.tables, src), at, BATCH_SIZE, skip, batch)
    requires |replies| >= |batch| && forall i | 0 <= i < |batch| :: Publisher.Honest(replies[i])
    ensures var r := Publisher.Pass(Locked(Table(p.tables, src), batch, at + LEASE), Stream(p.world.streams, src),
                                    batch, replies);
            Changed(p, StepAll(p, activities), src, r.rows, r.stream)
  {
    hide StepAll, Publisher.Pass, IsClaim;
    var locked := Locked(Table(p.tables, src), batch, at + LEASE);
    var p1 := Step(p, Begin(id, src, at, skip, batch));
    ClaimFits(Table(p.tables, src), at, skip, batch);
    var rest := LoopIsAnOperation(p1, id, src, batch, replies);
    activities := [Begin(id, src, at, skip, batch)] + rest;
    StepOne(p, activities[0], rest);
    var r := Publisher.Pass(locked, Stream(p.world.streams, src), batch, replies);
    ChangedTransitive(p, p1, StepAll(p, activities), src, locked, Stream(p.world.streams, src), r.rows, r.stream);
  }

  lemma ClaimFits(rows: seq<Row>, at: int, skip: set<nat>, batch: seq<nat>)
    requires IsClaim(rows, at, BATCH_SIZE, skip, batch)
    ensures Publisher.InTable(rows, batch)
    ensures rows == [] ==> batch == []
  {
    assert batch != [] ==> batch[0] < |rows|;
  }

  lemma {:induction false} StepOne(p: Plant, a: Activity, rest: seq<Activity>)
    ensures StepAll(p, [a] + rest) == StepAll(Step(p, a), rest)
  {
    hide Step;
    assert ([a] + rest)[1..] == rest;
  }
}
