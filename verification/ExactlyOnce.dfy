/** At-least-once delivery with exactly-once effect. */
module ExactlyOnce {
  import opened Events
  import opened Saga
  import Tickets
  import Orders
  import Payments
  import Growth

  predicate Commits(c: Core, s: Step)
    requires s.Handle?
  {
    match s.at
    case AtTickets => Tickets.Handle(c.tickets, s.event, s.eventId).Committed?
    case AtOrders => Orders.Handle(c.orders, s.event, s.eventId).Committed?
    case AtPayments => Payments.Handle(c.payments, s.event).Committed?
  }

  /** A request, or the first successful processing of an event by a service. */
  ghost predicate Effective(c: Core, s: Step) {
    && Enabled(c, s)
    && (s.Handle? ==> s.event.eventId !in Processed(c, s.at) && Commits(c, s))
  }

  /** The run without its duplicates, failed attempts and impossible steps. */
  ghost function Kept(c: Core, steps: seq<Step>): seq<Step> {
    if steps == [] then []
    else
      var front := steps[..|steps| - 1];
      var last := steps[|steps| - 1];
      Kept(c, front) + if Effective(Exec(c, front), last) then [last] else []
  }

  /** The same databases at the same time; `b` may have used fewer identifiers. */
  ghost predicate SameTables(a: Core, b: Core) {
    a.tickets == b.tickets && a.orders == b.orders && a.payments == b.payments && a.now == b.now && b.issued <= a.issued
  }

  /** A redelivery, and an attempt that fails, change nothing. */
  lemma IneffectiveChangesNothing(c: Core, s: Step)
    requires !Effective(c, s)
    ensures SameTables(Next(c, s), c)
  {
  }

  lemma EffectiveIsTransferable(a: Core, b: Core, s: Step)
    requires SameTables(a, b) && Effective(a, s)
    ensures Effective(b, s) && SameTables(Next(a, s), Next(b, s))
  {
    assert Enabled(b, s);
  }

  lemma EffectiveRecords(c: Core, s: Step)
    requires s.Handle? && Effective(c, s)
    ensures s.event.eventId in Processed(Next(c, s), s.at)
  {
  }

  /** In the kept run each service processes each event at most once, and every step is effective. */
  ghost predicate OnceEach(c: Core, kept: seq<Step>) {
    && (forall i | 0 <= i < |kept| :: Effective(Exec(c, kept[..i]), kept[i]))
    && (forall i, j | 0 <= i < j < |kept| && kept[i].Handle? && kept[j].Handle? && kept[i].at == kept[j].at ::
          kept[i].event.eventId != kept[j].event.eventId)
    && (forall i | 0 <= i < |kept| && kept[i].Handle? :: kept[i].event.eventId in Processed(Exec(c, kept), kept[i].at))
  }

  lemma {:induction false} OnceEachAppend(c: Core, kept: seq<Step>, s: Step)
    requires OnceEach(c, kept) && Effective(Exec(c, kept), s)
    ensures OnceEach(c, kept + [s])
  {
    hide Effective, Next;
    var longer := kept + [s];
    var before := Exec(c, kept);
    assert longer[..|kept|] == kept;
    Growth.NextGrows(before, s);
    forall i | 0 <= i < |longer|
      ensures Effective(Exec(c, longer[..i]), longer[i])
      ensures longer[i].Handle? ==> longer[i].event.eventId in Processed(Exec(c, longer), longer[i].at)
    {
      if i < |kept| {
        assert longer[..i] == kept[..i];
        if longer[i].Handle? {
          Growth.ProcessedGrows(before, Next(before, s), longer[i].at);
        }
      } else if s.Handle? {
        EffectiveRecords(before, s);
      }
    }
    if s.Handle? {
      EffectiveIsFirst(before, s);
    }
  }

  lemma EffectiveIsFirst(c: Core, s: Step)
    requires s.Handle? && Effective(c, s)
    ensures s.event.eventId !in Processed(c, s.at)
  {
  }

  /** Any run, with whatever duplicates, failed attempts and replays of deliveries at all three
      services, leaves the databases of the run that keeps only the first successful processing
      of each event by each service. */
  lemma {:induction false} ExactlyOnceEffect(c: Core, steps: seq<Step>)
    ensures SameTables(Exec(c, steps), Exec(c, Kept(c, steps)))
    ensures OnceEach(c, Kept(c, steps))
  {
    hide Effective, Next, OnceEach;
    if steps == [] {
      NothingKept(c);
    } else {
      var front := steps[..|steps| - 1];
      var s := steps[|steps| - 1];
      ExactlyOnceEffect(c, front);
      var a, b := Exec(c, front), Exec(c, Kept(c, front));
      if Effective(a, s) {
        EffectiveIsTransferable(a, b, s);
        OnceEachAppend(c, Kept(c, front), s);
        var kept := Kept(c, front) + [s];
        assert kept[..|kept| - 1] == Kept(c, front);
      } else {
        IneffectiveChangesNothing(a, s);
        assert Kept(c, steps) == Kept(c, front);
      }
    }
  }

  lemma NothingKept(c: Core)
    ensures OnceEach(c, [])
  {
  }
}
