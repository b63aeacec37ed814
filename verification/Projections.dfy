/** The log of a ticket, and Orders' copy of it under arbitrary delivery. */
module Projections {
  import opened Events
  import opened Saga
  import opened Invariants
  import Tickets
  import Orders
  import PaymentSteps
  import Growth

  // ----- The log of a ticket -----

  /** For a ticket at version v the outbox holds one event for each version 0..v, in sequence
      order, and the event of version k shows the row as it was committed at version k: here
      `c` is the moment of version k and `steps` whatever follows. */
  lemma {:induction false} TicketLogIsGapFree(c: Core, steps: seq<Step>, t: Uuid)
    requires Reachable(c) && t in c.tickets.tickets
    ensures var c' := Exec(c, steps);
            && t in c'.tickets.tickets && GapFree(c'.tickets.tickets[t], t, History(c'.tickets.outbox, t))
            && DistinctIds(c'.tickets.outbox)
            && 0 <= c.tickets.tickets[t].version < |History(c'.tickets.outbox, t)|
            && History(c'.tickets.outbox, t)[c.tickets.tickets[t].version].Ticket?()
            && Shows(History(c'.tickets.outbox, t)[c.tickets.tickets[t].version], c.tickets.tickets[t])
  {
    var c' := Exec(c, steps);
    PaymentSteps.ReachableInv(c);
    PaymentSteps.ExecInv(c, steps);
    Growth.ExecGrows(c, steps);
    Growth.HistoryPrefix(c.tickets.outbox, c'.tickets.outbox, t);
    assert GapFree(c.tickets.tickets[t], t, History(c.tickets.outbox, t));
    assert GapFree(c'.tickets.tickets[t], t, History(c'.tickets.outbox, t));
  }

  // ----- Orders' copy -----

  /** Under any delivery Orders' row at version k is the k-th snapshot Tickets committed, k is
      never above the version in Tickets, and it never goes down. */
  lemma {:induction false} ProjectionRefinesHistory(c: Core, steps: seq<Step>, t: Uuid)
    requires Reachable(c) && t in c.orders.tickets
    ensures Snapshot(c.tickets, c.orders.tickets[t], t)
    ensures var c' := Exec(c, steps);
            && t in c'.orders.tickets && Snapshot(c'.tickets, c'.orders.tickets[t], t)
            && Snapshot(c'.tickets, c.orders.tickets[t], t)
            && c.orders.tickets[t].version <= c'.orders.tickets[t].version
  {
    var c' := Exec(c, steps);
    PaymentSteps.ReachableInv(c);
    PaymentSteps.ExecInv(c, steps);
    Growth.ExecGrows(c, steps);
    Growth.HistoryPrefix(c.tickets.outbox, c'.tickets.outbox, t);
    assert Snapshot(c.tickets, c.orders.tickets[t], t);
    assert Snapshot(c'.tickets, c'.orders.tickets[t], t);
  }

  // ----- Convergence -----

  /** `h` are the events of versions 0, 1, ... of ticket `t`. */
  ghost predicate Versions(h: seq<Event>, t: Uuid) {
    && DistinctIds(h)
    && forall k | 0 <= k < |h| :: ValidTicketEvent(h[k]) && h[k].ticketId == t && h[k].version == k
  }

  /** How many versions of the ticket Orders has seen applied. */
  function Level(db: Orders.Db, t: Uuid): int {
    if t in db.tickets then db.tickets[t].version + 1 else 0
  }

  ghost predicate Aligned(db: Orders.Db, h: seq<Event>, t: Uuid) {
    && 0 <= Level(db, t) <= |h|
    && (t in db.tickets ==>
          && 0 <= db.tickets[t].version && h[db.tickets[t].version].Ticket?()
          && db.tickets[t] == Orders.RowOf(h[db.tickets[t].version]))
    && (forall k | 0 <= k < |h| && h[k].eventId in db.processed :: k < Level(db, t))
  }

  function Deliver(db: Orders.Db, e: Event): Orders.Db {
    Orders.Handle(db, e, 0).After(db)
  }

  function DeliverPass(db: Orders.Db, pass: seq<Event>): Orders.Db
    decreases |pass|
  {
    if pass == [] then db else DeliverPass(Deliver(db, pass[0]), pass[1..])
  }

  function DeliverPasses(db: Orders.Db, passes: seq<seq<Event>>): Orders.Db
    decreases |passes|
  {
    if passes == [] then db else DeliverPasses(DeliverPass(db, passes[0]), passes[1..])
  }

  /** A delivery of version k applies the snapshot when exactly versions 0..k-1 are there, and
      otherwise leaves the rows alone. */
  lemma DeliverOne(db: Orders.Db, h: seq<Event>, t: Uuid, k: nat)
    requires Versions(h, t) && Aligned(db, h, t) && k < |h|
    ensures Aligned(Deliver(db, h[k]), h, t)
    ensures Level(Deliver(db, h[k]), t) == if k == Level(db, t) then k + 1 else Level(db, t)
    ensures Orders.Handle(db, h[k], 0).Committed? <==> k <= Level(db, t)
    ensures k > Level(db, t) ==> Orders.Handle(db, h[k], 0) == RolledBack(VersionGap)
  {
    var db' := Deliver(db, h[k]);
    forall j | 0 <= j < |h| && h[j].eventId in db'.processed
      ensures j < Level(db', t)
    {
      if j != k {
        assert h[j].eventId != h[k].eventId;
      }
    }
  }

  ghost predicate Covers(pass: seq<Event>, h: seq<Event>) {
    && (forall e | e in pass :: e in h)
    && (forall e | e in h :: e in pass)
  }

  /** A sequence of deliveries never lowers the level, and raises it past k if it contains
      version k and starts at level k at least. */
  lemma {:induction false} DeliverSome(db: Orders.Db, h: seq<Event>, t: Uuid, pass: seq<Event>, k: nat)
    requires Versions(h, t) && Aligned(db, h, t) && forall e | e in pass :: e in h
    ensures Aligned(DeliverPass(db, pass), h, t)
    ensures Level(db, t) <= Level(DeliverPass(db, pass), t)
    ensures k < |h| && h[k] in pass && k <= Level(db, t) ==> k < Level(DeliverPass(db, pass), t)
    decreases |pass|
  {
    if pass != [] {
      assert pass[0] in pass;
      var j :| 0 <= j < |h| && h[j] == pass[0];
      DeliverOne(db, h, t, j);
      var db1 := Deliver(db, pass[0]);
      DeliverSome(db1, h, t, pass[1..], k);
      if k < |h| && h[k] in pass && k <= Level(db, t) {
        if h[k] == pass[0] {
          assert j == k by { hide Aligned, Deliver; }
          DeliverSome(db1, h, t, pass[1..], k);
        } else {
          assert pass == [pass[0]] + pass[1..];
        }
      }
    }
  }

  /** Every pass over all the events, in whatever order and with whatever repetitions, applies
      at least the next missing version. */
  lemma {:induction false} PassAdvances(db: Orders.Db, h: seq<Event>, t: Uuid, pass: seq<Event>)
    requires Versions(h, t) && Aligned(db, h, t) && Covers(pass, h)
    ensures Aligned(DeliverPass(db, pass), h, t)
    ensures Level(db, t) < |h| ==> Level(DeliverPass(db, pass), t) > Level(db, t)
    ensures Level(db, t) == |h| ==> Level(DeliverPass(db, pass), t) == |h|
  {
    DeliverSome(db, h, t, pass, Level(db, t));
    if Level(db, t) < |h| {
      assert h[Level(db, t)] in h;
    }
  }

  lemma {:induction false} PassesConverge(db: Orders.Db, h: seq<Event>, t: Uuid, passes: seq<seq<Event>>)
    requires Versions(h, t) && Aligned(db, h, t) && |passes| >= |h| - Level(db, t)
    requires forall i | 0 <= i < |passes| :: Covers(passes[i], h)
    ensures Aligned(DeliverPasses(db, passes), h, t) && Level(DeliverPasses(db, passes), t) == |h|
    decreases |passes|
  {
    if passes != [] {
      PassAdvances(db, h, t, passes[0]);
      PassesConverge(DeliverPass(db, passes[0]), h, t, passes[1..]);
    }
  }

  /** At the top, every event is accepted and changes no row any more. */
  lemma ConvergedIsQuiet(db: Orders.Db, h: seq<Event>, t: Uuid, k: nat)
    requires Versions(h, t) && Aligned(db, h, t) && Level(db, t) == |h| && k < |h|
    ensures Orders.Handle(db, h[k], 0).Committed? && Deliver(db, h[k]).tickets == db.tickets
  {
  }

  lemma {:induction false} HistoryIsVersions(t: Tickets.Db, id: Uuid)
    requires TicketLog(t) && DistinctIds(t.outbox) && id in t.tickets
    ensures Versions(History(t.outbox, id), id)
  {
    var h := History(t.outbox, id);
    assert GapFree(t.tickets[id], id, h);
    HistoryDistinct(t.outbox, id);
    forall k | 0 <= k < |h|
      ensures ValidTicketEvent(h[k])
    {
      HistoryMembers(t.outbox, id, h[k]);
    }
  }

  lemma {:induction false} ProjectionIsAligned(t: Tickets.Db, o: Orders.Db, id: Uuid)
    requires TicketLog(t) && TicketProjection(t, o) && id in t.tickets
    ensures Aligned(o, History(t.outbox, id), id)
  {
    var h := History(t.outbox, id);
    assert GapFree(t.tickets[id], id, h);
    assert id in o.tickets ==> Snapshot(t, o.tickets[id], id);
    forall k | 0 <= k < |h| && h[k].eventId in o.processed
      ensures k < Level(o, id)
    {
      HistoryMembers(t.outbox, id, h[k]);
    }
  }

  /** In every reachable state Orders is aligned with the log of every ticket. */
  lemma {:induction false} ReachableIsAligned(c: Core, t: Uuid)
    requires Reachable(c) && t in c.tickets.tickets
    ensures var h := History(c.tickets.outbox, t);
            && Versions(h, t) && Aligned(c.orders, h, t) && GapFree(c.tickets.tickets[t], t, h)
  {
    hide Reachable, History, Versions, Aligned;
    PaymentSteps.ReachableInv(c);
    HistoryIsVersions(c.tickets, t);
    ProjectionIsAligned(c.tickets, c.orders, t);
  }

  lemma {:induction false} HistoryDistinct(log: seq<Event>, t: Uuid)
    requires DistinctIds(log)
    ensures DistinctIds(History(log, t))
  {
    if log != [] {
      var front := log[..|log| - 1];
      HistoryDistinct(front, t);
      var h := History(front, t);
      forall i | 0 <= i < |h|
        ensures h[i].eventId != log[|log| - 1].eventId
      {
        HistoryMembers(front, t, h[i]);
        var j :| 0 <= j < |front| && front[j] == h[i];
        assert log[j] == h[i];
      }
    }
  }

  /** From any reachable state, redelivering the events v0..vn of a ticket in n+1 passes, each a
      permutation with any repetitions, makes Orders' row the row of Tickets. */
  lemma {:induction false} ProjectionConverges(c: Core, t: Uuid, passes: seq<seq<Event>>)
    requires Reachable(c) && t in c.tickets.tickets
    requires |passes| >= c.tickets.tickets[t].version + 1
    requires forall i | 0 <= i < |passes| :: Covers(passes[i], History(c.tickets.outbox, t))
    ensures var db := DeliverPasses(c.orders, passes); var row := c.tickets.tickets[t];
            t in db.tickets && db.tickets[t] == Orders.TicketRow(row.title, row.price, row.version)
  {
    hide Reachable, DeliverPasses, Covers;
    var h := History(c.tickets.outbox, t);
    ReachableIsAligned(c, t);
    PassesConverge(c.orders, h, t, passes);
  }

  // ----- How many passes it takes -----

  lemma {:induction false} AscendingFrom(db: Orders.Db, h: seq<Event>, t: Uuid, k: nat)
    requires Versions(h, t) && Aligned(db, h, t) && k <= |h| && k <= Level(db, t)
    ensures Level(DeliverPass(db, h[k..]), t) == |h|
    decreases |h| - k
  {
    if k < |h| {
      DeliverOne(db, h, t, k);
      assert h[k..][0] == h[k] && h[k..][1..] == h[k + 1..];
      AscendingFrom(Deliver(db, h[k]), h, t, k + 1);
    }
  }

  /** Replayed in sequence order, the events converge in a single pass. */
  lemma {:induction false} SequenceOrderTakesOnePass(db: Orders.Db, h: seq<Event>, t: Uuid)
    requires Versions(h, t) && Aligned(db, h, t)
    ensures Level(DeliverPass(db, h), t) == |h|
  {
    assert h[0..] == h;
    AscendingFrom(db, h, t, 0);
  }

  function Reversed(h: seq<Event>): seq<Event> {
    if h == [] then [] else [h[|h| - 1]] + Reversed(h[..|h| - 1])
  }

  lemma LevelBounds(db: Orders.Db, h: seq<Event>, t: Uuid)
    requires Aligned(db, h, t)
    ensures 0 <= Level(db, t) <= |h|
  {
  }

  lemma {:induction false} DescendingFrom(db: Orders.Db, h: seq<Event>, t: Uuid, k: nat)
    requires Versions(h, t) && Aligned(db, h, t) && k <= |h|
    ensures Level(DeliverPass(db, Reversed(h[..k])), t) == Level(db, t) + if Level(db, t) < k then 1 else 0
    decreases k
  {
    hide Aligned, Deliver, Versions, Level;
    LevelBounds(db, h, t);
    if k > 0 {
      var pass := Reversed(h[..k]);
      assert h[..k][..k - 1] == h[..k - 1];
      assert pass[0] == h[k - 1] && pass[1..] == Reversed(h[..k - 1]);
      DeliverOne(db, h, t, k - 1);
      DescendingFrom(Deliver(db, h[k - 1]), h, t, k - 1);
    }
  }

  /** Replayed in reverse, they advance by exactly one version a pass, so n+1 passes are needed. */
  lemma {:induction false} ReverseOrderTakesAllPasses(db: Orders.Db, h: seq<Event>, t: Uuid)
    requires Versions(h, t) && Aligned(db, h, t) && Level(db, t) < |h|
    ensures Level(DeliverPass(db, Reversed(h)), t) == Level(db, t) + 1
  {
    assert h[..|h|] == h;
    DescendingFrom(db, h, t, |h|);
  }
}
