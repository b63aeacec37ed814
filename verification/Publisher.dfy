/** One dispatch pass of an outbox publisher, internal/outbox/publisher.go, and what it is in
    the terms of the World machine. */
module Publisher {
  import opened Events
  import opened Outbox
  import World

  /** What becomes of one event of the batch: whether the broker took the message, whether it
      dropped it as a duplicate, whether the acknowledgment arrived in time, when that was, and
      whether the row could be marked. */
  datatype Reply = Reply(accepted: bool, dropped: bool, acknowledged: bool, at: int, marks: bool)

  predicate Honest(r: Reply) {
    r.acknowledged ==> r.accepted
  }

  datatype DispatchError = PublishError(pos: nat) | MarkFailedError(pos: nat) | MarkPublishedError(pos: nat)

  datatype PassResult = PassResult(rows: seq<Row>, stream: seq<Event>, error: Option<DispatchError>)

  function Accepted(stream: seq<Event>, e: Event, r: Reply): seq<Event> {
    if r.accepted && !(r.dropped && e in stream) then stream + [e] else stream
  }

  predicate InTable(rows: seq<Row>, batch: seq<nat>) {
    forall i | 0 <= i < |batch| :: batch[i] < |rows|
  }

  /** The loop over a batch, from the table right after the claim. */
  function Pass(rows: seq<Row>, stream: seq<Event>, batch: seq<nat>, replies: seq<Reply>): PassResult
    requires InTable(rows, batch) && |replies| >= |batch|
    decreases |batch|
  {
    if batch == [] then PassResult(rows, stream, None)
    else
      var pos, r := batch[0], replies[0];
      var stream' := Accepted(stream, rows[pos].event, r);
      if !r.acknowledged then
        if r.marks then PassResult(rows[pos := FailedRow(rows[pos], r.at)], stream', Some(PublishError(pos)))
        else PassResult(rows, stream', Some(MarkFailedError(pos)))
      else if !r.marks then PassResult(rows, stream', Some(MarkPublishedError(pos)))
      else Pass(rows[pos := Published(rows[pos], r.at)], stream', batch[1..], replies[1..])
  }

  predicate Ascending(batch: seq<nat>) {
    forall i, j | 0 <= i < j < |batch| :: batch[i] < batch[j]
  }

  /** Nothing went wrong with event `i` of the batch. */
  predicate Smooth(r: Reply) {
    r.acknowledged && r.marks
  }

  /** `done` is the length of the smooth prefix of the batch.  Its rows are marked published; the
      next one, if any, is marked failed if the broker did not acknowledge it and it could be
      marked, and else left as claimed; the rest of the batch and of the table is as before. */
  ghost predicate PrefixPublished(rows: seq<Row>, rows': seq<Row>, batch: seq<nat>, replies: seq<Reply>, done: nat)
    requires InTable(rows, batch) && |replies| >= |batch|
  {
    && |rows'| == |rows| && done <= |batch|
    && (forall i | 0 <= i < done :: Smooth(replies[i]) && rows'[batch[i]] == Published(rows[batch[i]], replies[i].at))
    && (done < |batch| ==>
          && !Smooth(replies[done])
          && rows'[batch[done]] == if !replies[done].acknowledged && replies[done].marks
                                   then FailedRow(rows[batch[done]], replies[done].at) else rows[batch[done]])
    && (forall p | 0 <= p < |rows| && p !in batch[..done] && !(done < |batch| && p == batch[done]) ::
        rows'[p] == rows[p])
  }

  /** The stream once the first `n` events of the batch were sent. */
  function Sent(rows: seq<Row>, stream: seq<Event>, batch: seq<nat>, replies: seq<Reply>, n: nat): seq<Event>
    requires InTable(rows, batch) && |replies| >= |batch| && n <= |batch|
  {
    if n == 0 then stream
    else Accepted(Sent(rows, stream, batch, replies, n - 1), rows[batch[n - 1]].event, replies[n - 1])
  }

  lemma {:induction false} SentCons(rows: seq<Row>, rows1: seq<Row>, stream: seq<Event>, batch: seq<nat>,
                                    replies: seq<Reply>, n: nat)
    requires InTable(rows, batch) && |replies| >= |batch| && n < |batch| && |rows1| == |rows|
    requires forall p | 0 <= p < |rows| :: rows1[p].event == rows[p].event
    ensures Sent(rows, stream, batch, replies, n + 1)
            == Sent(rows1, Accepted(stream, rows[batch[0]].event, replies[0]), batch[1..], replies[1..], n)
  {
    hide Accepted;
    if n > 0 {
      SentCons(rows, rows1, stream, batch, replies, n - 1);
      assert batch[1..][n - 1] == batch[n] && replies[1..][n - 1] == replies[n];
    } else {
      assert Sent(rows, stream, batch, replies, 0) == stream;
    }
  }

  /** What stopped the pass at `pos`. */
  function Trouble(pos: nat, r: Reply): DispatchError {
    if r.acknowledged then MarkPublishedError(pos) else if r.marks then PublishError(pos) else MarkFailedError(pos)
  }

  /** A pass publishes exactly the smooth prefix of its batch, stops at the first trouble and
      reports it, touches no row beyond, and has sent the events up to there and no others. */
  lemma {:induction false} PassPublishesPrefix(rows: seq<Row>, stream: seq<Event>, batch: seq<nat>,
                                               replies: seq<Reply>)
    returns (done: nat)
    requires InTable(rows, batch) && |replies| >= |batch| && Ascending(batch)
    ensures done <= |batch| && PrefixPublished(rows, Pass(rows, stream, batch, replies).rows, batch, replies, done)
    ensures Pass(rows, stream, batch, replies).error
            == if done < |batch| then Some(Trouble(batch[done], replies[done])) else None
    ensures Pass(rows, stream, batch, replies).stream
            == Sent(rows, stream, batch, replies, if done < |batch| then done + 1 else done)
    decreases |batch|
  {
    hide PrefixPublished, Accepted;
    if batch == [] || !Smooth(replies[0]) {
      done := 0;
      PassStops(rows, stream, batch, replies);
    } else {
      var rows1 := rows[batch[0] := Published(rows[batch[0]], replies[0].at)];
      var stream1 := Accepted(stream, rows[batch[0]].event, replies[0]);
      var rest := PassPublishesPrefix(rows1, stream1, batch[1..], replies[1..]);
      done := rest + 1;
      PrefixExtends(rows, rows1, Pass(rows, stream, batch, replies).rows, batch, replies, rest);
      SentCons(rows, rows1, stream, batch, replies, if rest < |batch| - 1 then rest + 1 else rest);
    }
  }

  lemma PassStops(rows: seq<Row>, stream: seq<Event>, batch: seq<nat>, replies: seq<Reply>)
    requires InTable(rows, batch) && |replies| >= |batch| && (batch == [] || !Smooth(replies[0]))
    ensures var r := Pass(rows, stream, batch, replies);
            && PrefixPublished(rows, r.rows, batch, replies, 0)
            && r.error == (if batch != [] then Some(Trouble(batch[0], replies[0])) else None)
            && r.stream == Sent(rows, stream, batch, replies, if batch != [] then 1 else 0)
  {
    hide Accepted;
    assert Sent(rows, stream, batch, replies, 0) == stream;
  }

  lemma PrefixExtends(rows: seq<Row>, rows1: seq<Row>, rows': seq<Row>, batch: seq<nat>, replies: seq<Reply>, rest: nat)
    requires InTable(rows, batch) && |replies| >= |batch| && Ascending(batch) && batch != [] && Smooth(replies[0])
    requires rows1 == rows[batch[0] := Published(rows[batch[0]], replies[0].at)]
    requires PrefixPublished(rows1, rows', batch[1..], replies[1..], rest)
    ensures rest + 1 <= |batch| && PrefixPublished(rows, rows', batch, replies, rest + 1)
  {
    var done := rest + 1;
    assert batch[..done] == [batch[0]] + batch[1..][..rest];
    forall i | 0 <= i < done
      ensures Smooth(replies[i]) && rows'[batch[i]] == Published(rows[batch[i]], replies[i].at)
    {
      if i > 0 {
        assert batch[1..][i - 1] == batch[i] && replies[1..][i - 1] == replies[i];
      } else {
        assert batch[0] !in batch[1..];
      }
    }
  }

  /** A row is marked published only when its event is on the stream. */
  ghost predicate PublishedIsOnStream(rows: seq<Row>, stream: seq<Event>) {
    forall p | 0 <= p < |rows| && rows[p].publishedAt.Some? :: rows[p].event in stream
  }

  /** A pass keeps that, adds only events of its batch to the stream, and removes nothing. */
  lemma {:induction false} PassKeepsPublishedOnStream(rows: seq<Row>, stream: seq<Event>, batch: seq<nat>,
                                                      replies: seq<Reply>)
    requires InTable(rows, batch) && |replies| >= |batch| && forall i | 0 <= i < |batch| :: Honest(replies[i])
    requires PublishedIsOnStream(rows, stream)
    ensures PublishedIsOnStream(Pass(rows, stream, batch, replies).rows, Pass(rows, stream, batch, replies).stream)
    ensures stream <= Pass(rows, stream, batch, replies).stream
    decreases |batch|
  {
    if batch != [] && replies[0].acknowledged && replies[0].marks {
      var stream' := Accepted(stream, rows[batch[0]].event, replies[0]);
      assert Honest(replies[0]);
      assert rows[batch[0]].event in stream';
      assert forall e :: e in stream ==> e in stream';
      PassKeepsPublishedOnStream(rows[batch[0] := Published(rows[batch[0]], replies[0].at)], stream', batch[1..],
                                 replies[1..]);
    }
  }

  // ----- Retrying in time -----

  /** Event `i` of the batch is published from `begun[i]` on, after the claim at `at`, and what
      comes of it is known, and marked, within the publish timeout. */
  predicate Timed(at: int, begun: seq<int>, replies: seq<Reply>, n: nat) {
    && |begun| >= n && |replies| >= n
    && forall i | 0 <= i < n :: at <= begun[i] <= replies[i].at <= begun[i] + PUBLISH_TIMEOUT
  }

  /** What a pass leaves of a claimed row it did not mark published: locked, or marked failed. */
  lemma {:induction false} UnpublishedAfterPass(rows: seq<Row>, stream: seq<Event>, batch: seq<nat>,
                                                replies: seq<Reply>, i: nat)
    requires InTable(rows, batch) && |replies| >= |batch| && Ascending(batch) && i < |batch|
    ensures var r := Pass(rows, stream, batch, replies);
            && |r.rows| == |rows|
            && (|| r.rows[batch[i]] == Published(rows[batch[i]], replies[i].at)
                || r.rows[batch[i]] == FailedRow(rows[batch[i]], replies[i].at)
                || r.rows[batch[i]] == rows[batch[i]])
  {
    var done := PassPublishesPrefix(rows, stream, batch, replies);
    if i > done {
      assert batch[i] !in batch[..done];
    }
  }

  /** An event that the broker accepted at `accepted`, in a publish begun at `begun[i]`, and whose
      row the pass did not mark published: whether the pass failed at it, could not mark it, or
      never came to it, the row is claimable from 65 seconds on (the 5 s timeout and the longest
      backoff, or the lease), well inside the window in which the broker drops the duplicate. */
  lemma AcceptedIsRetriedInsideWindow(rows: seq<Row>, stream: seq<Event>, at: int, skip: set<nat>, batch: seq<nat>,
                                      begun: seq<int>, replies: seq<Reply>, i: nat, accepted: int)
    requires IsClaim(rows, at, BATCH_SIZE, skip, batch) && Timed(at, begun, replies, |batch|)
    requires i < |batch| && begun[i] <= accepted
    ensures var after := Pass(Locked(rows, batch, at + LEASE), stream, batch, replies).rows;
            && |after| == |rows|
            && (after[batch[i]].publishedAt.None? ==> forall t | t >= accepted + 65_000 :: Eligible(after[batch[i]], t))
    ensures accepted + 65_000 < accepted + DUPLICATE_WINDOW
  {
    hide Pass;
    var locked := Locked(rows, batch, at + LEASE);
    UnpublishedAfterPass(locked, stream, batch, replies, i);
    assert Eligible(rows[batch[i]], at) && locked[batch[i]] == Lock(rows[batch[i]], at + LEASE);
    BackoffIsMonotoneAndBounded(rows[batch[i]].attempts);
  }

  // ----- A pass in the World machine -----

  /** The table and the stream are those of source `src` in `w`. */
  ghost predicate Shows(w: World.World, src: World.Source, rows: seq<Row>, stream: seq<Event>) {
    && World.Stream(w.streams, src) == stream
    && |World.Log(w.core, src)| == |rows|
    && (forall p | 0 <= p < |rows| :: World.Log(w.core, src)[p] == rows[p].event)
    && (forall p: nat :: (src, p) in w.published <==> p < |rows| && rows[p].publishedAt.Some?)
  }

  /** A claim is invisible outside the outbox. */
  lemma ClaimIsInvisible(w: World.World, src: World.Source, rows: seq<Row>, stream: seq<Event>, claimed: seq<nat>,
                         until: int)
    requires Shows(w, src, rows, stream)
    ensures Shows(w, src, Locked(rows, claimed, until), stream)
  {
  }

  ghost function ProgressAll(w: World.World, hs: seq<World.Happening>): World.World
    decreases |hs|
  {
    if hs == [] then w else ProgressAll(World.Progress(w, hs[0]), hs[1..])
  }

  lemma {:induction false} ProgressConcat(w: World.World, a: seq<World.Happening>, b: seq<World.Happening>)
    ensures ProgressAll(w, a + b) == ProgressAll(ProgressAll(w, a), b)
    decreases |a|
  {
    hide World.Progress;
    if a == [] {
      assert a + b == b;
    } else {
      assert (a + b)[0] == a[0] && (a + b)[1..] == a[1..] + b;
      ProgressConcat(World.Progress(w, a[0]), a[1..], b);
    }
  }

  lemma AcceptStep(w: World.World, src: World.Source, rows: seq<Row>, stream: seq<Event>, pos: nat, r: Reply)
    returns (hs: seq<World.Happening>)
    requires Shows(w, src, rows, stream) && pos < |rows|
    ensures Shows(ProgressAll(w, hs), src, rows, Accepted(stream, rows[pos].event, r))
    ensures ProgressAll(w, hs).core == w.core
  {
    if r.accepted && !(r.dropped && rows[pos].event in stream) {
      var h := World.Accept(src, pos, false);
      hs := [h];
      assert hs[1..] == [];
      assert ProgressAll(w, hs) == World.Progress(w, h);
    } else {
      hs := [];
    }
  }

  lemma MarkStep(w: World.World, src: World.Source, rows: seq<Row>, stream: seq<Event>, pos: nat, at: int)
    returns (hs: seq<World.Happening>)
    requires Shows(w, src, rows, stream) && pos < |rows| && rows[pos].event in stream
    ensures Shows(ProgressAll(w, hs), src, rows[pos := Published(rows[pos], at)], stream)
    ensures ProgressAll(w, hs).core == w.core
  {
    var h := World.MarkPublished(src, pos);
    hs := [h];
    assert hs[1..] == [];
    assert ProgressAll(w, hs) == World.Progress(w, h);
  }

  /** Every pass is a sequence of happenings of the World machine, so what is proved of all runs
      of that machine holds of runs made of passes. */
  lemma {:induction false} PassIsARunOfTheWorld(w: World.World, src: World.Source, rows: seq<Row>, stream: seq<Event>,
                                                batch: seq<nat>, replies: seq<Reply>) returns (hs: seq<World.Happening>)
    requires Shows(w, src, rows, stream)
    requires InTable(rows, batch) && |replies| >= |batch| && forall i | 0 <= i < |batch| :: Honest(replies[i])
    ensures var r := Pass(rows, stream, batch, replies);
            Shows(ProgressAll(w, hs), src, r.rows, r.stream) && ProgressAll(w, hs).core == w.core
    decreases |batch|
  {
    hide Shows, World.Progress, ProgressAll;
    if batch == [] {
      hs := [];
      NothingProgresses(w);
    } else {
      var pos, r := batch[0], replies[0];
      var stream' := Accepted(stream, rows[pos].event, r);
      var first := AcceptStep(w, src, rows, stream, pos, r);
      var w1 := ProgressAll(w, first);
      if r.acknowledged && r.marks {
        assert Honest(replies[0]);
        var second := MarkStep(w1, src, rows, stream', pos, r.at);
        var w2 := ProgressAll(w1, second);
        var third := PassIsARunOfTheWorld(w2, src, rows[pos := Published(rows[pos], r.at)], stream', batch[1..],
                                          replies[1..]);
        ProgressConcat(w, first, second);
        ProgressConcat(w, first + second, third);
        hs := first + second + third;
      } else {
        hs := first;
        MarkingFailedIsInvisible(w1, src, rows, stream', pos, r.at);
      }
    }
  }

  lemma {:induction false} CourseConcat(now: int, hs: seq<World.Happening>, more: seq<World.Happening>)
    ensures World.Course(now, hs + more) == ProgressAll(World.Course(now, hs), more)
    decreases |more|
  {
    hide World.Progress;
    if more == [] {
      assert hs + more == hs;
    } else {
      var longer := hs + [more[0]];
      assert longer[..|hs|] == hs && hs + more == longer + more[1..];
      CourseConcat(now, longer, more[1..]);
    }
  }

  /** So a course of the World machine that shows the table can be continued by a whole pass of
      publishPending, claim included. */
  lemma CourseContinuesByPass(now: int, hs: seq<World.Happening>, src: World.Source, rows: seq<Row>, stream: seq<Event>,
                              at: int, skip: set<nat>, batch: seq<nat>, replies: seq<Reply>)
    returns (hs': seq<World.Happening>)
    requires Shows(World.Course(now, hs), src, rows, stream)
    requires IsClaim(rows, at, BATCH_SIZE, skip, batch)
    requires |replies| >= |batch| && forall i | 0 <= i < |batch| :: Honest(replies[i])
    ensures var r := Pass(Locked(rows, batch, at + LEASE), stream, batch, replies);
            && hs <= hs' && Shows(World.Course(now, hs'), src, r.rows, r.stream)
            && World.Course(now, hs').core == World.Course(now, hs).core
  {
    hide Shows, World.Progress, ProgressAll, World.Course;
    var w := World.Course(now, hs);
    ClaimIsInvisible(w, src, rows, stream, batch, at + LEASE);
    var more := PassIsARunOfTheWorld(w, src, Locked(rows, batch, at + LEASE), stream, batch, replies);
    CourseConcat(now, hs, more);
    hs' := hs + more;
  }

  lemma {:induction false} NothingProgresses(w: World.World)
    ensures ProgressAll(w, []) == w
  {
  }

  lemma MarkingFailedIsInvisible(w: World.World, src: World.Source, rows: seq<Row>, stream: seq<Event>, pos: nat,
                                 at: int)
    requires Shows(w, src, rows, stream) && pos < |rows|
    ensures Shows(w, src, rows[pos := FailedRow(rows[pos], at)], stream)
  {
  }

  // ----- The publisher -----

  class Publisher {
    const repository: Repository
    var stream: seq<Event>

    constructor (repository: Repository)
      ensures this.repository == repository && stream == []
    {
      this.repository, stream := repository, [];
    }

    method Publish(e: Event, r: Reply) returns (acknowledged: bool)
      modifies this
      ensures stream == Accepted(old(stream), e, r) && acknowledged == r.acknowledged
    {
      if r.accepted && !(r.dropped && e in stream) {
        stream := stream + [e];
      }
      acknowledged := r.acknowledged;
    }

    /** publishPending: claims a batch, then publishes and marks its rows one by one, leaving at
        the first error.  `replies` is what the broker and the database answer in turn. */
    method PublishPending(now: int, skip: set<nat>, replies: seq<Reply>)
      returns (error: Option<DispatchError>, ghost batch: seq<nat>)
      requires |replies| >= BATCH_SIZE
      modifies this, repository
      ensures IsClaim(old(repository.rows), now, 100, skip, batch)
      ensures var r := Pass(Locked(old(repository.rows), batch, now + 30_000), old(stream), batch, replies);
              repository.rows == r.rows && stream == r.stream && error == r.error
    {
      var claimed := repository.ClaimPending(BATCH_SIZE, now, skip);
      batch := claimed;
      ghost var whole := Pass(repository.rows, stream, claimed, replies);
      var i := 0;
      while i < |claimed|
        invariant 0 <= i <= |claimed| && InTable(repository.rows, claimed)
        invariant Pass(repository.rows, stream, claimed[i..], replies[i..]) == whole
      {
        var pos, r := claimed[i], replies[i];
        assert claimed[i..][0] == pos && replies[i..][0] == r;
        assert claimed[i..][1..] == claimed[i + 1..] && replies[i..][1..] == replies[i + 1..];
        var acknowledged := Publish(repository.rows[pos].event, r);
        if !acknowledged {
          if !r.marks {
            return Some(MarkFailedError(pos)), batch;
          }
          repository.MarkRowFailed(pos, r.at);
          return Some(PublishError(pos)), batch;
        }
        if !r.marks {
          return Some(MarkPublishedError(pos)), batch;
        }
        repository.MarkRowPublished(pos, r.at);
        i := i + 1;
      }
      return None, batch;
    }
  }
}
