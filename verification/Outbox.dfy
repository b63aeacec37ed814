/** The transactional outbox: internal/outbox.  Times are milliseconds. */
module Outbox {
  import opened Events

  const PUBLISH_TIMEOUT: int := 5_000
  const LEASE: int := 30_000
  const BATCH_SIZE: nat := 100
  const DUPLICATE_WINDOW: int := 120_000

  /** A row of outbox_events; its sequence is its position in the table. */
  datatype Row = Row(event: Event, publishedAt: Option<int>, attempts: nat, nextAttemptAt: Option<int>,
                     lockedUntil: Option<int>)

  function NewRow(e: Event): Row {
    Row(e, None, 0, None, None)
  }

  predicate Eligible(r: Row, now: int) {
    && r.publishedAt.None?
    && (r.lockedUntil.None? || r.lockedUntil.value < now)
    && (r.nextAttemptAt.None? || r.nextAttemptAt.value <= now)
  }

  /** `claimed` are the lowest at most `limit` eligible positions that no other claimer holds
      (`skip`), in ascending order. */
  ghost predicate IsClaim(rows: seq<Row>, now: int, limit: nat, skip: set<nat>, claimed: seq<nat>) {
    && |claimed| <= limit
    && (forall i | 0 <= i < |claimed| :: claimed[i] < |rows| && Eligible(rows[claimed[i]], now) && claimed[i] !in skip)
    && (forall i, j | 0 <= i < j < |claimed| :: claimed[i] < claimed[j])
    && (forall p | 0 <= p < |rows| && Eligible(rows[p], now) && p !in skip && p !in claimed ::
          |claimed| == limit && forall i | 0 <= i < |claimed| :: claimed[i] < p)
  }

  function Lock(r: Row, until: int): Row {
    r.(lockedUntil := Some(until))
  }

  /** The table after a claim. */
  function Locked(rows: seq<Row>, claimed: seq<nat>, until: int): seq<Row> {
    seq(|rows|, p requires 0 <= p < |rows| => if p in claimed then Lock(rows[p], until) else rows[p])
  }

  function Published(r: Row, now: int): Row {
    r.(publishedAt := Some(now), lockedUntil := None, nextAttemptAt := None)
  }

  function Power2(n: nat): nat {
    if n == 0 then 1 else 2 * Power2(n - 1)
  }

  function Min(a: int, b: int): int {
    if a < b then a else b
  }

  /** Seconds: LEAST(2 ^ LEAST(attempts + 1, 6), 60). */
  function Backoff(attempts: nat): int {
    Min(Power2(Min(attempts + 1, 6)), 60)
  }

  function FailedRow(r: Row, now: int): Row {
    r.(attempts := r.attempts + 1, lockedUntil := None, nextAttemptAt := Some(now + 1000 * Backoff(r.attempts)))
  }

  /** A claim is determined by the table, the time, the limit and the rows others hold. */
  lemma {:induction false} ClaimIsUnique(rows: seq<Row>, now: int, limit: nat, skip: set<nat>, a: seq<nat>, b: seq<nat>)
    requires IsClaim(rows, now, limit, skip, a) && IsClaim(rows, now, limit, skip, b)
    ensures a == b
  {
    var i := 0;
    while i < |a| && i < |b| && a[i] == b[i]
      invariant 0 <= i <= |a| && i <= |b| && a[..i] == b[..i]
    {
      i := i + 1;
    }
    if i < |a| && i < |b| {
      if a[i] < b[i] {
        NotSkipped(rows, now, limit, skip, a, b, i);
      } else {
        NotSkipped(rows, now, limit, skip, b, a, i);
      }
    } else if i < |a| {
      NotInPrefix(a, b, i);
    } else if i < |b| {
      NotInPrefix(b, a, i);
    }
  }

  lemma NotInPrefix(a: seq<nat>, b: seq<nat>, i: nat)
    requires i < |a| && i == |b| && a[..i] == b[..i]
    requires forall j, k | 0 <= j < k < |a| :: a[j] < a[k]
    ensures a[i] !in b
  {
    forall j | 0 <= j < |b|
      ensures b[j] != a[i]
    {
      assert a[..i][j] == b[..i][j];
    }
  }

  /** A claim cannot pass over a row that another claim takes. */
  lemma NotSkipped(rows: seq<Row>, now: int, limit: nat, skip: set<nat>, a: seq<nat>, b: seq<nat>, i: nat)
    requires IsClaim(rows, now, limit, skip, a) && IsClaim(rows, now, limit, skip, b)
    requires i < |a| && i < |b| && a[..i] == b[..i]
    ensures a[i] >= b[i]
  {
    forall j | 0 <= j < |b|
      ensures b[j] != a[i] || b[i] <= a[i]
    {
      if j < i {
        assert a[..i][j] == b[..i][j];
      }
    }
  }

  // ----- Backoff and leases -----

  /** The delay grows with the attempts and stays between two seconds and a minute. */
  lemma BackoffIsMonotoneAndBounded(attempts: nat)
    ensures 2 <= Backoff(attempts) <= Backoff(attempts + 1) <= 60
    ensures attempts >= 5 <==> Backoff(attempts) == 60
  {
    assert Power2(1) == 2 && Power2(2) == 4 && Power2(3) == 8;
    assert Power2(4) == 16 && Power2(5) == 32 && Power2(6) == 64;
    if attempts < 5 {
      assert attempts + 1 in {1, 2, 3, 4, 5};
    }
  }

  /** What happens to the table. */
  datatype Op =
    | Insert(event: Event, now: int)
    | Claim(now: int, limit: nat, skip: set<nat>, claimed: seq<nat>)
    | MarkPublished(pos: nat, now: int)
    | MarkFailed(pos: nat, now: int)

  ghost predicate Legal(rows: seq<Row>, op: Op) {
    match op
    case Insert(_, _) => true
    case Claim(now, limit, skip, claimed) => IsClaim(rows, now, limit, skip, claimed)
    case MarkPublished(pos, _) => pos < |rows|
    case MarkFailed(pos, _) => pos < |rows|
  }

  function Effect(rows: seq<Row>, op: Op): seq<Row> {
    match op
    case Insert(event, _) => rows + [NewRow(event)]
    case Claim(now, _, _, claimed) => Locked(rows, claimed, now + LEASE)
    case MarkPublished(pos, now) => if pos < |rows| then rows[pos := Published(rows[pos], now)] else rows
    case MarkFailed(pos, now) => if pos < |rows| then rows[pos := FailedRow(rows[pos], now)] else rows
  }

  ghost predicate LegalRun(rows: seq<Row>, ops: seq<Op>)
    decreases |ops|
  {
    ops == [] || (Legal(rows, ops[0]) && LegalRun(Effect(rows, ops[0]), ops[1..]))
  }

  /** A published row, or one whose lease runs until `until` at least. */
  predicate Withheld(r: Row, until: int) {
    r.publishedAt.Some? || (r.lockedUntil.Some? && r.lockedUntil.value >= until)
  }

  /** While its lease is unexpired, no claim takes a row, unless it was marked failed. */
  lemma {:induction false} LeaseIsExclusive(rows: seq<Row>, ops: seq<Op>, pos: nat, until: int, k: nat)
    requires LegalRun(rows, ops) && pos < |rows| && Withheld(rows[pos], until)
    requires forall i | 0 <= i < |ops| :: ops[i] != MarkFailed(pos, ops[i].now)
    requires k < |ops| && ops[k].Claim? && ops[k].now <= until
    ensures pos !in ops[k].claimed
    decreases k
  {
    if k > 0 {
      var rows' := Effect(rows, ops[0]);
      if ops[0].Claim? && pos in ops[0].claimed {
        var i :| 0 <= i < |ops[0].claimed| && ops[0].claimed[i] == pos;
        assert Eligible(rows[pos], ops[0].now);
      }
      assert Withheld(rows'[pos], until);
      assert forall i | 0 <= i < |ops| - 1 :: ops[1..][i] == ops[i + 1];
      LeaseIsExclusive(rows', ops[1..], pos, until, k - 1);
    }
  }

  /** A lease protects exactly until it expires: a claimed row that nobody marked is taken by the
      next publisher with room for it if and only if more than thirty seconds have passed. */
  lemma LeaseEndsExactly(rows: seq<Row>, now: int, limit: nat, skip: set<nat>, claimed: seq<nat>, pos: nat, later: int,
                         next: seq<nat>)
    requires IsClaim(rows, now, limit, skip, claimed) && pos in claimed && pos < |rows| && now <= later
    requires IsClaim(Locked(rows, claimed, now + LEASE), later, |rows|, {}, next)
    ensures pos in next <==> later > now + 30_000
  {
    var i :| 0 <= i < |claimed| && claimed[i] == pos;
    assert Eligible(rows[pos], now);
    var locked := Locked(rows, claimed, now + LEASE);
    assert Eligible(locked[pos], later) <==> later > now + LEASE;
    if pos in next {
      var j :| 0 <= j < |next| && next[j] == pos;
    } else {
      AscendingLeavesRoom(next, |rows|, pos);
    }
  }

  /** A full ascending list of positions has all of them. */
  lemma {:induction false} AscendingLeavesRoom(next: seq<nat>, n: nat, pos: nat)
    requires forall i | 0 <= i < |next| :: next[i] < n
    requires forall i, j | 0 <= i < j < |next| :: next[i] < next[j]
    requires pos < n && pos !in next
    ensures |next| < n
  {
    if next != [] {
      var front := next[..|next| - 1];
      var last := next[|next| - 1];
      if last < pos {
        AscendingIsShort(next, pos);
      } else {
        assert pos !in front;
        AscendingLeavesRoom(front, last, pos);
      }
    }
  }

  lemma {:induction false} AscendingIsShort(next: seq<nat>, n: nat)
    requires forall i | 0 <= i < |next| :: next[i] < n
    requires forall i, j | 0 <= i < j < |next| :: next[i] < next[j]
    ensures |next| <= n
  {
    if next != [] {
      AscendingIsShort(next[..|next| - 1], next[|next| - 1]);
    }
  }

  // ----- No row waits for ever -----

  /** Touched at `t`, a row that is still unpublished is free again a minute later. */
  predicate Restful(r: Row, t: int) {
    r.publishedAt.None? ==>
      && (r.lockedUntil.None? || r.lockedUntil.value <= t + LEASE)
      && (r.nextAttemptAt.None? || r.nextAttemptAt.value <= t + 60_000)
  }

  /** When each row was touched last. */
  function Touch(touched: seq<int>, op: Op): seq<int> {
    match op
    case Insert(_, now) => touched + [now]
    case Claim(now, _, _, claimed) =>
      seq(|touched|, p requires 0 <= p < |touched| => if p in claimed then now else touched[p])
    case MarkPublished(pos, now) => if pos < |touched| then touched[pos := now] else touched
    case MarkFailed(pos, now) => if pos < |touched| then touched[pos := now] else touched
  }

  ghost predicate AllRestful(rows: seq<Row>, touched: seq<int>) {
    |rows| == |touched| && forall p | 0 <= p < |rows| :: Restful(rows[p], touched[p])
  }

  lemma EffectIsRestful(rows: seq<Row>, touched: seq<int>, op: Op)
    requires AllRestful(rows, touched) && Legal(rows, op)
    ensures AllRestful(Effect(rows, op), Touch(touched, op))
  {
    if op.MarkFailed? {
      BackoffIsMonotoneAndBounded(rows[op.pos].attempts);
    }
    if op.Claim? {
      forall p | 0 <= p < |rows| && p in op.claimed
        ensures Eligible(rows[p], op.now)
      {
        var i :| 0 <= i < |op.claimed| && op.claimed[i] == p;
      }
    }
  }

  function Run(rows: seq<Row>, ops: seq<Op>): seq<Row>
    decreases |ops|
  {
    if ops == [] then rows else Run(Effect(rows, ops[0]), ops[1..])
  }

  function TouchRun(touched: seq<int>, ops: seq<Op>): seq<int>
    decreases |ops|
  {
    if ops == [] then touched else TouchRun(Touch(touched, ops[0]), ops[1..])
  }

  lemma {:induction false} RunIsRestful(rows: seq<Row>, touched: seq<int>, ops: seq<Op>)
    requires AllRestful(rows, touched) && LegalRun(rows, ops)
    ensures AllRestful(Run(rows, ops), TouchRun(touched, ops))
    decreases |ops|
  {
    if ops != [] {
      EffectIsRestful(rows, touched, ops[0]);
      RunIsRestful(Effect(rows, ops[0]), Touch(touched, ops[0]), ops[1..]);
    }
  }

  /** In every run every unpublished row is claimable from 60 seconds after its last touch on. */
  lemma {:induction false} UnpublishedBecomesClaimable(ops: seq<Op>, pos: nat, now: int)
    requires LegalRun([], ops)
    requires pos < |Run([], ops)| && Run([], ops)[pos].publishedAt.None?
    ensures pos < |TouchRun([], ops)|
    ensures now >= TouchRun([], ops)[pos] + 60_000 ==> Eligible(Run([], ops)[pos], now)
  {
    RunIsRestful([], [], ops);
  }

  // ----- Claims, told from what happened -----

  /** How often row `pos` was marked failed. */
  function Failures(ops: seq<Op>, pos: nat): nat {
    if ops == [] then 0
    else
      var last := ops[|ops| - 1];
      Failures(ops[..|ops| - 1], pos) + if last.MarkFailed? && last.pos == pos then 1 else 0
  }

  /** Seconds of rest after the k-th failure. */
  function Rest(k: nat): int {
    if k <= 1 then 2 else if k == 2 then 4 else if k == 3 then 8 else if k == 4 then 16 else if k == 5 then 32 else 60
  }

  /** Until when the last failure makes the row rest. */
  function RestsUntil(ops: seq<Op>, pos: nat): Option<int> {
    if ops == [] then None
    else
      var last := ops[|ops| - 1];
      if last.MarkFailed? && last.pos == pos then Some(last.now + 1000 * Rest(Failures(ops, pos)))
      else RestsUntil(ops[..|ops| - 1], pos)
  }

  /** Until when the last claim holds the row, unless a failure gave it back. */
  function HeldUntil(ops: seq<Op>, pos: nat): Option<int> {
    if ops == [] then None
    else
      var last := ops[|ops| - 1];
      if last.Claim? && pos in last.claimed then Some(last.now + 30_000)
      else if last.MarkFailed? && last.pos == pos then None
      else HeldUntil(ops[..|ops| - 1], pos)
  }

  predicate WasPublished(ops: seq<Op>, pos: nat) {
    exists i :: 0 <= i < |ops| && ops[i].MarkPublished? && ops[i].pos == pos
  }

  /** What happened leaves row `pos` to be claimed at `now`: it was never marked published, its
      lease is over, and it has rested. */
  predicate Waiting(ops: seq<Op>, pos: nat, now: int) {
    && !WasPublished(ops, pos)
    && (HeldUntil(ops, pos).Some? ==> now > HeldUntil(ops, pos).value)
    && (RestsUntil(ops, pos).Some? ==> now >= RestsUntil(ops, pos).value)
  }

  lemma {:induction false} RunSnoc(rows: seq<Row>, ops: seq<Op>, op: Op)
    requires LegalRun(rows, ops + [op])
    ensures LegalRun(rows, ops) && Legal(Run(rows, ops), op)
    ensures Run(rows, ops + [op]) == Effect(Run(rows, ops), op)
    decreases |ops|
  {
    hide Legal, Effect;
    var longer := ops + [op];
    if ops == [] {
      assert longer[0] == op && longer[1..] == [];
    } else {
      assert longer[0] == ops[0] && longer[1..] == ops[1..] + [op];
      RunSnoc(Effect(rows, ops[0]), ops[1..], op);
    }
  }

  lemma RestIsBackoff(k: nat)
    ensures Backoff(k) == Rest(k + 1)
  {
    assert Power2(1) == 2 && Power2(2) == 4 && Power2(3) == 8;
    assert Power2(4) == 16 && Power2(5) == 32 && Power2(6) == 64;
    if k < 6 {
      assert k + 1 in {1, 2, 3, 4, 5, 6};
    }
  }

  /** A row says what happened to it. */
  predicate Remembers(r: Row, ops: seq<Op>, pos: nat) {
    && r.attempts == Failures(ops, pos)
    && (r.publishedAt.Some? <==> WasPublished(ops, pos))
    && (r.publishedAt.None? ==> r.lockedUntil == HeldUntil(ops, pos) && r.nextAttemptAt == RestsUntil(ops, pos))
  }

  lemma {:induction false} UnseenIsUntouched(ops: seq<Op>, pos: nat)
    requires LegalRun([], ops) && pos >= |Run([], ops)|
    ensures Failures(ops, pos) == 0 && !WasPublished(ops, pos) && HeldUntil(ops, pos) == None
            && RestsUntil(ops, pos) == None
  {
    if ops != [] {
      var front, last := ops[..|ops| - 1], ops[|ops| - 1];
      assert ops == front + [last];
      RunSnoc([], front, last);
      UnseenIsUntouched(front, pos);
      assert last.Claim? ==> forall i | 0 <= i < |last.claimed| :: last.claimed[i] < |Run([], front)|;
    }
  }

  lemma {:induction false} RowsRemember(ops: seq<Op>, pos: nat)
    requires LegalRun([], ops) && pos < |Run([], ops)|
    ensures Remembers(Run([], ops)[pos], ops, pos)
  {
    hide Backoff, Rest, Legal, LegalRun, Run;
    if ops == [] {
      NothingRun();
    } else {
      var front, last := ops[..|ops| - 1], ops[|ops| - 1];
      assert ops == front + [last];
      RunSnoc([], front, last);
      PublishedSnoc(front, last, pos);
      if pos < |Run([], front)| {
        RowsRemember(front, pos);
        RestIsBackoff(Run([], front)[pos].attempts);
      } else {
        UnseenIsUntouched(front, pos);
      }
    }
  }

  lemma NothingRun()
    ensures Run([], []) == []
  {
  }

  lemma PublishedSnoc(front: seq<Op>, last: Op, pos: nat)
    ensures WasPublished(front + [last], pos) <==> WasPublished(front, pos) || (last.MarkPublished? && last.pos == pos)
  {
    var ops := front + [last];
    assert ops[|front|] == last;
    assert forall i | 0 <= i < |front| :: ops[i] == front[i];
  }

  /** In every run of inserts, claims and marks, a claim takes nothing but rows whose history lets
      them go and that nobody holds, and passes over such a row only when it is full of lower ones.
      After the k-th failure that is 2, 4, 8, 16, 32, and then always 60 seconds later; after a
      claim more than 30 seconds; after a publication never. */
  lemma {:induction false} ClaimsFollowHistory(ops: seq<Op>, now: int, limit: nat, skip: set<nat>, claimed: seq<nat>,
                                               pos: nat)
    requires LegalRun([], ops + [Claim(now, limit, skip, claimed)]) && pos < |Run([], ops)|
    ensures pos in claimed ==> Waiting(ops, pos, now) && pos !in skip
    ensures Waiting(ops, pos, now) && pos !in skip && pos !in claimed ==>
              |claimed| == limit && forall i | 0 <= i < |claimed| :: claimed[i] < pos
  {
    hide LegalRun, Run;
    RunSnoc([], ops, Claim(now, limit, skip, claimed));
    RowsRemember(ops, pos);
    if pos in claimed {
      var i :| 0 <= i < |claimed| && claimed[i] == pos;
    }
  }

  /** So no claim takes a row that was marked failed at `t` until its rest is over. */
  lemma {:induction false} FailedRowRests(before: seq<Op>, t: int, between: seq<Op>, pos: nat, now: int, limit: nat,
                                          skip: set<nat>, claimed: seq<nat>)
    requires var ops := before + [MarkFailed(pos, t)] + between; LegalRun([], ops + [Claim(now, limit, skip, claimed)])
    requires forall i | 0 <= i < |between| :: !(between[i].MarkFailed? && between[i].pos == pos)
    requires now < t + 1000 * Rest(Failures(before, pos) + 1)
    ensures pos !in claimed
  {
    var ops := before + [MarkFailed(pos, t)] + between;
    RestLasts(before, t, between, pos);
    if pos in claimed {
      RunSnoc([], ops, Claim(now, limit, skip, claimed));
      var i :| 0 <= i < |claimed| && claimed[i] == pos;
      ClaimsFollowHistory(ops, now, limit, skip, claimed, pos);
    }
  }

  lemma {:induction false} RestLasts(before: seq<Op>, t: int, between: seq<Op>, pos: nat)
    requires forall i | 0 <= i < |between| :: !(between[i].MarkFailed? && between[i].pos == pos)
    ensures RestsUntil(before + [MarkFailed(pos, t)] + between, pos) == Some(t + 1000 * Rest(Failures(before, pos) + 1))
    decreases |between|
  {
    hide Rest;
    var ops := before + [MarkFailed(pos, t)] + between;
    if between == [] {
      assert ops == before + [MarkFailed(pos, t)] && ops[..|ops| - 1] == before;
    } else {
      var front := between[..|between| - 1];
      assert ops[..|ops| - 1] == before + [MarkFailed(pos, t)] + front;
      RestLasts(before, t, front, pos);
    }
  }

  // ----- The repository -----

  class Repository {
    var rows: seq<Row>

    constructor ()
      ensures rows == []
    {
      rows := [];
    }

    /** `skip` are the rows that other claiming transactions hold. */
    method ClaimPending(limit: nat, now: int, skip: set<nat>) returns (claimed: seq<nat>)
      modifies this
      ensures IsClaim(old(rows), now, limit, skip, claimed)
      ensures rows == Locked(old(rows), claimed, now + LEASE)
    {
      claimed := [];
      var table := rows;
      var p := 0;
      while p < |table| && |claimed| < limit
        invariant 0 <= p <= |table| && |claimed| <= limit
        invariant forall i | 0 <= i < |claimed| ::
                  claimed[i] < p && Eligible(table[claimed[i]], now) && claimed[i] !in skip
        invariant forall i, j | 0 <= i < j < |claimed| :: claimed[i] < claimed[j]
        invariant forall q | 0 <= q < p && Eligible(table[q], now) && q !in skip :: q in claimed
      {
        if Eligible(table[p], now) && p !in skip {
          claimed := claimed + [p];
        }
        p := p + 1;
      }
      rows := Locked(table, claimed, now + LEASE);
    }

    method MarkRowPublished(pos: nat, now: int)
      requires pos < |rows|
      modifies this
      ensures rows == old(rows)[pos := Published(old(rows)[pos], now)]
    {
      rows := rows[pos := rows[pos].(publishedAt := Some(now), lockedUntil := None, nextAttemptAt := None)];
    }

    method MarkRowFailed(pos: nat, now: int)
      requires pos < |rows|
      modifies this
      ensures rows == old(rows)[pos := FailedRow(old(rows)[pos], now)]
    {
      var r := rows[pos];
      rows := rows[pos := r.(attempts := r.attempts + 1, lockedUntil := None,
                             nextAttemptAt := Some(now + 1000 * Backoff(r.attempts)))];
    }
  }
}
