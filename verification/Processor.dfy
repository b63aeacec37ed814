/** The background processor of Payments, apps/payments/internal/payment/processor.go. */
module Processor {
  import opened Events
  import opened Payments
  import Invariants
  import PaymentSteps

  const RANDOM_FAILURE_PROBABILITY: real := 0.10

  function PendingOf(db: Db): set<Uuid> {
    set id | id in db.payments && db.payments[id].status == Pending
  }

  function Settled(p: Payment, succeeded: bool): Payment {
    Payment(p.id, p.orderId, if succeeded then Succeeded else FailedStatus)
  }

  function Told(p: Payment, succeeded: bool, eventId: Uuid): Event {
    if succeeded then PaymentSucceeded(eventId, p.id, p.orderId) else PaymentFailed(eventId, p.id, p.orderId)
  }

  /** Each pick is, in its turn, the least pending payment that others do not hold. */
  ghost predicate InTurn(start: Db, picks: seq<Uuid>, locked: nat -> set<Uuid>) {
    && (forall i, j | 0 <= i < j < |picks| :: picks[i] != picks[j])
    && (forall i: nat | i < |picks| :: picks[i] in PendingOf(start) && picks[i] !in locked(i))
    && (forall i: nat, id | i < |picks| && id in PendingOf(start) && id !in picks[..i] && id !in locked(i) ::
        picks[i] <= id)
  }

  /** The picks have their fates, and nothing else changed. */
  ghost predicate Fated(start: Db, db: Db, picks: seq<Uuid>, fates: nat -> bool) {
    && (forall id | id in picks :: id in start.payments) && db.payments.Keys == start.payments.Keys
    && (forall id | id in start.payments && id !in picks :: db.payments[id] == start.payments[id])
    && (forall i: nat | i < |picks| :: db.payments[picks[i]] == Settled(start.payments[picks[i]], fates(i)))
    && db.orders == start.orders && db.processed == start.processed
  }

  /** The log tells the fates, in turn. */
  ghost predicate Logged(start: Db, db: Db, picks: seq<Uuid>, fates: nat -> bool, eventIds: nat -> Uuid) {
    && (forall id | id in picks :: id in start.payments)
    && |db.outbox| == |start.outbox| + |picks| && start.outbox <= db.outbox
    && (forall i: nat | i < |picks| ::
          db.outbox[|start.outbox| + i] == Told(start.payments[picks[i]], fates(i), eventIds(i)))
  }

  /** `picks` are the payments that were settled, in turn. */
  ghost predicate Drained(start: Db, db: Db, picks: seq<Uuid>, fates: nat -> bool, eventIds: nat -> Uuid,
                          locked: nat -> set<Uuid>) {
    InTurn(start, picks, locked) && Fated(start, db, picks, fates) && Logged(start, db, picks, fates, eventIds)
  }

  lemma NothingDrained(db: Db, fates: nat -> bool, eventIds: nat -> Uuid, locked: nat -> set<Uuid>)
    ensures Drained(db, db, [], fates, eventIds, locked)
  {
  }

  lemma FatedIsSettled(start: Db, db: Db, picks: seq<Uuid>, fates: nat -> bool)
    requires Fated(start, db, picks, fates)
    ensures forall id | id in picks :: id in start.payments && id !in PendingOf(db)
    ensures forall id :: id in PendingOf(db) <==> id in PendingOf(start) && id !in picks
    ensures forall id | id in PendingOf(db) :: db.payments[id] == start.payments[id]
  {
    forall id | id in picks
      ensures id !in PendingOf(db)
    {
      var i: nat :| i < |picks| && picks[i] == id;
      assert db.payments[picks[i]] == Settled(start.payments[picks[i]], fates(i));
    }
  }

  lemma StillPending(start: Db, db: Db, picks: seq<Uuid>, fates: nat -> bool, locked: nat -> set<Uuid>)
    requires InTurn(start, picks, locked) && Fated(start, db, picks, fates)
    ensures |PendingOf(db)| == |PendingOf(start)| - |picks|
  {
    hide Fated;
    FatedIsSettled(start, db, picks, fates);
    var picked := Elements(picks);
    DistinctCount(picks);
    assert picked <= PendingOf(start);
    assert PendingOf(db) == PendingOf(start) - picked;
  }

  function Elements(ids: seq<Uuid>): set<Uuid> {
    set id | id in ids
  }

  lemma {:induction false} DistinctCount(ids: seq<Uuid>)
    requires forall i, j | 0 <= i < j < |ids| :: ids[i] != ids[j]
    ensures |Elements(ids)| == |ids|
  {
    if ids == [] {
      assert Elements(ids) == {};
    } else {
      var front, last := ids[..|ids| - 1], ids[|ids| - 1];
      DistinctCount(front);
      assert ids == front + [last];
      assert Elements(ids) == Elements(front) + {last};
      assert last !in Elements(front);
    }
  }

  lemma InTurnOneMore(start: Db, db: Db, picks: seq<Uuid>, fates: nat -> bool, locked: nat -> set<Uuid>, pick: Uuid)
    requires InTurn(start, picks, locked) && Fated(start, db, picks, fates)
    requires IsNextPending(db, locked(|picks|), Some(pick))
    ensures InTurn(start, picks + [pick], locked) && pick !in picks && pick in PendingOf(start)
  {
    hide Fated;
    FatedIsSettled(start, db, picks, fates);
    assert Claimable(db, locked(|picks|), pick) && pick in PendingOf(db);
    forall id | id in PendingOf(start) && id !in picks && id !in locked(|picks|)
      ensures pick <= id
    {
      assert id in PendingOf(db) && Claimable(db, locked(|picks|), id);
    }
    var more := picks + [pick];
    assert forall i | 0 <= i <= |picks| :: more[..i] == picks[..i];
  }

  lemma FatedOneMore(start: Db, db: Db, db': Db, picks: seq<Uuid>, fates: nat -> bool, eventId: Uuid, pick: Uuid)
    requires Fated(start, db, picks, fates) && pick !in picks && pick in start.payments
    requires Settles(db, db', pick, fates(|picks|), eventId)
    ensures Fated(start, db', picks + [pick], fates)
  {
  }

  lemma LoggedOneMore(start: Db, db: Db, db': Db, picks: seq<Uuid>, fates: nat -> bool, eventIds: nat -> Uuid,
                      pick: Uuid)
    requires Logged(start, db, picks, fates, eventIds)
    requires pick in start.payments && pick in db.payments && db.payments[pick] == start.payments[pick]
    requires Settles(db, db', pick, fates(|picks|), eventIds(|picks|))
    ensures Logged(start, db', picks + [pick], fates, eventIds)
  {
  }

  lemma DrainedOneMore(start: Db, db: Db, db': Db, picks: seq<Uuid>, fates: nat -> bool, eventIds: nat -> Uuid,
                       locked: nat -> set<Uuid>, pick: Uuid)
    requires Drained(start, db, picks, fates, eventIds, locked)
    requires Settles(db, db', pick, fates(|picks|), eventIds(|picks|))
    requires IsNextPending(db, locked(|picks|), Some(pick))
    ensures Drained(start, db', picks + [pick], fates, eventIds, locked)
  {
    hide InTurn, Fated, Logged, IsNextPending;
    InTurnOneMore(start, db, picks, fates, locked, pick);
    FatedIsSettled(start, db, picks, fates);
    FatedOneMore(start, db, db', picks, fates, eventIds(|picks|), pick);
    LoggedOneMore(start, db, db', picks, fates, eventIds, pick);
  }

  lemma NothingClaimable(db: Db, skip: set<Uuid>, pick: Option<Uuid>)
    requires IsNextPending(db, skip, pick) && pick.None?
    ensures PendingOf(db) <= skip
  {
    assert forall id :: id in PendingOf(db) && id !in skip ==> Claimable(db, skip, id);
  }

  lemma SettlesKeepsLedger(db: Db, db': Db, id: Uuid, succeeded: bool, eventId: Uuid)
    requires Settles(db, db', id, succeeded, eventId) && Invariants.PaymentLog(db)
    ensures Invariants.PaymentLog(db')
  {
    assert Invariants.PaymentRow(db, id);
    PaymentSteps.LedgerResolve(db, db', id, if succeeded then Succeeded else FailedStatus, eventId);
  }

  /** Why the loop ended: the context was canceled, nothing was left to claim, or an error. */
  datatype Ending = Interrupted | Exhausted | Refused

  /** After `calls` calls, each but the one that ended the loop settled a payment. */
  ghost predicate Accounts(db: Db, settled: nat, calls: nat, ending: Ending, alive: nat, configured: bool,
                           locked: nat -> set<Uuid>, down: nat -> bool) {
    && calls <= alive && calls == (if ending == Interrupted then settled else settled + 1)
    && (forall i: nat | i < settled :: !down(i))
    && match ending
       case Interrupted => calls == alive && (calls > 0 ==> configured)
       case Exhausted => !down(settled) && PendingOf(db) <= locked(settled)
       case Refused => down(settled) || (!configured && settled == 0)
  }

  /** With a known outcome, nobody else at work and no error, the loop takes exactly one call more
      than there were payments to resolve, and leaves none, unless it is interrupted before. */
  lemma UndisturbedDrain(start: Db, db: Db, picks: seq<Uuid>, fates: nat -> bool, eventIds: nat -> Uuid, calls: nat,
                         ending: Ending, alive: nat, locked: nat -> set<Uuid>, down: nat -> bool)
    requires Drained(start, db, picks, fates, eventIds, locked)
    requires Accounts(db, |picks|, calls, ending, alive, true, locked, down)
    requires forall i: nat :: !down(i) && locked(i) == {}
    ensures if alive > |PendingOf(start)|
            then ending == Exhausted && calls == |PendingOf(start)| + 1 && PendingOf(db) == {}
            else if alive < |PendingOf(start)| then ending == Interrupted && calls == alive
            else ending == Interrupted && PendingOf(db) == {}
  {
    StillPending(start, db, picks, fates, locked);
    assert PendingOf(db) == {} <==> |PendingOf(db)| == 0;
  }

  class Processor {
    const outcome: ProcessorOutcome
    const randomFailures: bool
    const repository: Payments.Repository

    constructor (repository: Payments.Repository, outcome: ProcessorOutcome, randomFailures: bool)
      ensures this.repository == repository && this.outcome == outcome && this.randomFailures == randomFailures
    {
      this.repository, this.outcome, this.randomFailures := repository, outcome, randomFailures;
    }

    function NextOutcome(draw: real): ProcessorOutcome {
      if randomFailures then if draw < RANDOM_FAILURE_PROBABILITY then OutcomeFailure else OutcomeSuccess
      else outcome
    }

    /** One payment in ten fails when failures are random; otherwise all have the one outcome. */
    predicate Lucky(draw: real) {
      if randomFailures then draw >= 0.10 else outcome == OutcomeSuccess
    }

    /** Whether every outcome this processor can draw is one that is known. */
    predicate Configured() {
      randomFailures || outcome == OutcomeSuccess || outcome == OutcomeFailure
    }

    /** ProcessOnce.  Meanwhile other processors hold the rows `locked`, and the database refuses
        the transaction if it is `down`.  The answer is the payment that was settled, if any. */
    method ProcessOnce(draw: real, eventId: Uuid, locked: set<Uuid>, down: bool)
      returns (r: Result<Option<Payment>>, ghost pick: Option<Uuid>)
      modifies repository
      ensures r.Failed? ==> (down || !Configured()) && repository.Tables() == old(repository.Tables())
      ensures r == Success(None) ==>
                !down && repository.Tables() == old(repository.Tables()) && PendingOf(repository.Tables()) <= locked
      ensures r.Success? && r.value.Some? ==>
                && !down && Configured() && pick.Some? && IsNextPending(old(repository.Tables()), locked, pick)
                && Settles(old(repository.Tables()), repository.Tables(), pick.value, Lucky(draw), eventId)
                && r.value == Some(repository.payments[pick.value])
    {
      hide ResolveNextPending, IsNextPending, Settles;
      pick := None;
      if down {
        return Failed(Unavailable), None;
      }
      ghost var before := repository.Tables();
      r, pick := repository.ResolveNext(NextOutcome(draw), locked, eventId);
      ResolutionTellsTheOutcome(before, NextOutcome(draw), locked, pick, eventId);
      if pick.None? {
        NothingClaimable(before, locked, pick);
      }
    }

    /** processPending.  The context is canceled after `alive` calls of ProcessOnce; `draws` and
        `eventIds` are the random numbers and the generated ids.  Others write the ledger between
        the calls in the Saga machine, not here. */
    method ProcessPending(alive: nat, draws: nat -> real, eventIds: nat -> Uuid, locked: nat -> set<Uuid>,
                          down: nat -> bool)
      returns (calls: nat, ending: Ending, ghost picks: seq<Uuid>)
      modifies repository
      ensures Drained(old(repository.Tables()), repository.Tables(), picks, (i: nat) => Lucky(draws(i)), eventIds,
                      locked)
      ensures Accounts(repository.Tables(), |picks|, calls, ending, alive, Configured(), locked, down)
      ensures old(Invariants.PaymentLog(repository.Tables())) ==> Invariants.PaymentLog(repository.Tables())
    {
      hide Drained, Invariants.PaymentLog, Settles, IsNextPending;
      ghost var start := repository.Tables();
      ghost var fates := (i: nat) => Lucky(draws(i));
      NothingDrained(start, fates, eventIds, locked);
      calls, picks := 0, [];
      while calls < alive
        invariant calls <= alive && |picks| == calls && (calls > 0 ==> Configured())
        invariant forall i: nat | i < calls :: !down(i)
        invariant Drained(start, repository.Tables(), picks, fates, eventIds, locked)
        invariant Invariants.PaymentLog(start) ==> Invariants.PaymentLog(repository.Tables())
      {
        ghost var before := repository.Tables();
        var r, pick := ProcessOnce(draws(calls), eventIds(calls), locked(calls), down(calls));
        if r.Failed? {
          return calls + 1, Refused, picks;
        }
        if r.value.None? {
          return calls + 1, Exhausted, picks;
        }
        DrainedOneMore(start, before, repository.Tables(), picks, fates, eventIds, locked, pick.value);
        if Invariants.PaymentLog(before) {
          SettlesKeepsLedger(before, repository.Tables(), pick.value, fates(calls), eventIds(calls));
        }
        picks := picks + [pick.value];
        calls := calls + 1;
      }
      ending := Interrupted;
    }
  }
}
