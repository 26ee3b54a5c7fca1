/** The inbound event queue (src/jobs/webhookWorker.ts and the enqueueing half of
    src/services/webhookProcessor.service.ts). */
module WebhookQueue {
  import opened Wrappers
  import opened Sorting
  import opened Tables

  type RowId = nat

  const MAX_ATTEMPTS: nat := 8
  const BATCH: nat := 10
  const STALE_LOCK_MS: nat := 300_000
  const MAX_BACKOFF_MS: nat := 3_600_000

  datatype EventStatus = Received | InProgress | Processed | FailedOnce | Dead

  datatype Row = Row(provider: nat, eventId: nat, ignored: bool, status: EventStatus,
                     attempts: nat, nextAttemptAt: Time, receivedAt: Time, lockedAt: Option<Time>)

  datatype EnqueueResult = Queued | Duplicate

  // -------------------------------------------------------------------- backoff

  function Doubled(n: nat): nat { if n == 0 then 10_000 else 2 * Doubled(n - 1) }

  /** 10s, 20s, 40s and so on, capped at an hour. */
  function BackoffMs(attempt: int): nat {
    var d := Doubled(if attempt <= 1 then 0 else attempt - 1);
    if d < MAX_BACKOFF_MS then d else MAX_BACKOFF_MS
  }

  lemma {:induction false} DoubledGrows(m: nat, n: nat)
    requires m <= n
    ensures 10_000 <= Doubled(m) <= Doubled(n)
  {
    if m < n { DoubledGrows(m, n - 1); }
    if m == n && n != 0 { DoubledGrows(m - 1, n - 1); }
  }

  /** The wait starts at ten seconds, doubles with each attempt, and never passes an hour. */
  lemma BackoffDoubles(attempt: int)
    ensures 10_000 <= BackoffMs(attempt) <= 3_600_000
    ensures attempt <= 1 ==> BackoffMs(attempt) == 10_000
    ensures attempt >= 1 ==> BackoffMs(attempt + 1) == if 2 * BackoffMs(attempt) < 3_600_000 then 2 * BackoffMs(attempt) else 3_600_000
  {
    DoubledGrows(0, if attempt <= 1 then 0 else attempt - 1);
  }

  /** A row that will be tried again waits at most 640 seconds. */
  lemma RetriesComeSoon(attempt: nat)
    requires attempt < MAX_ATTEMPTS
    ensures BackoffMs(attempt) <= 640_000
  {
    DoubledGrows(if attempt <= 1 then 0 else attempt - 1, 6);
    assert Doubled(6) == 640_000 by {
      assert Doubled(3) == 80_000;
      assert Doubled(4) == 160_000;
      assert Doubled(5) == 320_000;
    }
  }

  // -------------------------------------------------------------- single rows

  predicate Claimable(row: Row, now: Time) {
    || (row.status in {Received, FailedOnce} && row.nextAttemptAt <= now)
    || (row.status == InProgress && row.lockedAt.Some? && row.lockedAt.value + STALE_LOCK_MS < now)
  }

  function ClaimRow(row: Row, now: Time): Row {
    row.(status := InProgress, lockedAt := Some(now), attempts := row.attempts + 1)
  }

  /** What a worker writes once its handler has returned or thrown. `attempts` is the number
      it saw when it claimed the row. */
  function Settle(row: Row, attempts: nat, ok: bool, now: Time): Row {
    if ok then row.(status := Processed, lockedAt := None)
    else row.(status := if attempts >= MAX_ATTEMPTS then Dead else FailedOnce, lockedAt := None, nextAttemptAt := now + BackoffMs(attempts))
  }

  predicate SameEvent(a: Row, provider: nat, eventId: nat) { a.provider == provider && a.eventId == eventId }

  predicate Stored(rows: seq<Row>, provider: nat, eventId: nat) {
    exists i :: 0 <= i < |rows| && SameEvent(rows[i], provider, eventId)
  }

  function NewEvent(provider: nat, eventId: nat, ignored: bool, now: Time): Row {
    Row(provider, eventId, ignored, if ignored then Processed else Received, 0, now, now, None)
  }

  function MalformedEvent(provider: nat, eventId: nat, now: Time): Row {
    Row(provider, eventId, false, Dead, 0, now, now, None)
  }

  /** Insert, doing nothing on a conflict. */
  function StoreOnce(rows: seq<Row>, row: Row): seq<Row> {
    if Stored(rows, row.provider, row.eventId) then rows else rows + [row]
  }

  /** Claimed and settled, without anyone else in between. */
  function Handled(row: Row, ok: bool, now: Time): Row { Settle(ClaimRow(row, now), row.attempts + 1, ok, now) }

  lemma HandledIsNotClaimable(row: Row, ok: bool, now: Time)
    ensures !Claimable(Handled(row, ok, now), now)
  {
    BackoffDoubles(row.attempts + 1);
  }

  // -------------------------------------------------------------------- batches

  datatype Waiting = Waiting(id: RowId, receivedAt: Time)

  predicate Earlier(a: Waiting, b: Waiting) {
    if a.receivedAt != b.receivedAt then a.receivedAt < b.receivedAt else a.id <= b.id
  }

  function WaitingRows(rows: seq<Row>, now: Time, n: nat): seq<Waiting>
    requires n <= |rows|
  {
    if n == 0 then []
    else WaitingRows(rows, now, n - 1) + if Claimable(rows[n - 1], now) then [Waiting(n - 1, rows[n - 1].receivedAt)] else []
  }

  function FirstClaimable(rows: seq<Row>, now: Time): (ids: seq<RowId>) {
    var queue := Sort(Earlier, WaitingRows(rows, now, |rows|));
    var n := if |queue| < BATCH then |queue| else BATCH;
    seq(n, i requires 0 <= i < n => queue[i].id)
  }

  lemma EarlierIsTotal()
    ensures TotalOrder(Earlier)
  {
  }

  lemma {:induction false} WaitingAreClaimable(rows: seq<Row>, now: Time, n: nat)
    requires n <= |rows|
    ensures forall w :: w in WaitingRows(rows, now, n) <==> w.id < n && Claimable(rows[w.id], now) && w.receivedAt == rows[w.id].receivedAt
    ensures Distinct(WaitingRows(rows, now, n))
  {
    if n != 0 {
      WaitingAreClaimable(rows, now, n - 1);
      var rest := WaitingRows(rows, now, n - 1);
      forall i | 0 <= i < |rest| ensures rest[i].id < n - 1 { assert rest[i] in rest; }
    }
  }

  lemma QueueIsTheClaimable(rows: seq<Row>, now: Time)
    ensures var queue := Sort(Earlier, WaitingRows(rows, now, |rows|));
      && Sorted(Earlier, queue) && Distinct(queue)
      && forall w :: w in queue <==> w.id < |rows| && Claimable(rows[w.id], now) && w.receivedAt == rows[w.id].receivedAt
  {
    WaitingAreClaimable(rows, now, |rows|);
    EarlierIsTotal();
    SortCorrect(Earlier, WaitingRows(rows, now, |rows|));
    SortKeepsDistinct(Earlier, WaitingRows(rows, now, |rows|));
  }

  /** A batch holds distinct due rows, all of them when there are fewer than ten, and no row
      left waiting arrived before one that was taken. */
  lemma BatchIsOldest(rows: seq<Row>, now: Time)
    ensures var ids := FirstClaimable(rows, now);
      && Distinct(ids) && |ids| <= BATCH
      && (forall i :: 0 <= i < |ids| ==> ids[i] < |rows| && Claimable(rows[ids[i]], now))
      && (|ids| < BATCH ==> forall r: RowId :: r < |rows| && Claimable(rows[r], now) ==> r in ids)
      && (forall i, r: RowId :: 0 <= i < |ids| && r < |rows| && Claimable(rows[r], now) && r !in ids ==> rows[ids[i]].receivedAt <= rows[r].receivedAt)
  {
    var queue, ids := Sort(Earlier, WaitingRows(rows, now, |rows|)), FirstClaimable(rows, now);
    QueueIsTheClaimable(rows, now);
    forall i | 0 <= i < |ids| ensures ids[i] < |rows| && Claimable(rows[ids[i]], now) && rows[ids[i]].receivedAt == queue[i].receivedAt {
      assert queue[i] in queue;
    }
    forall i, j | 0 <= i < j < |ids| ensures ids[i] != ids[j] {
      assert queue[i] in queue && queue[j] in queue && queue[i] != queue[j];
    }
    forall r: RowId | r < |rows| && Claimable(rows[r], now) && r !in ids
      ensures |ids| == BATCH && forall i :: 0 <= i < |ids| ==> rows[ids[i]].receivedAt <= rows[r].receivedAt
    {
      LeftWaiting(rows, now, r);
    }
  }

  lemma LeftWaiting(rows: seq<Row>, now: Time, r: RowId)
    requires r < |rows| && Claimable(rows[r], now) && r !in FirstClaimable(rows, now)
    ensures var queue := Sort(Earlier, WaitingRows(rows, now, |rows|));
      && |FirstClaimable(rows, now)| == BATCH <= |queue|
      && forall i :: 0 <= i < BATCH ==> queue[i].receivedAt <= rows[r].receivedAt
  {
    var queue, ids := Sort(Earlier, WaitingRows(rows, now, |rows|)), FirstClaimable(rows, now);
    QueueIsTheClaimable(rows, now);
    var w := Waiting(r, rows[r].receivedAt);
    assert w in queue;
    var k :| 0 <= k < |queue| && queue[k] == w;
    forall i | 0 <= i < |ids| ensures queue[i].id != r {
      assert ids[i] == queue[i].id;
    }
    forall i | 0 <= i < |ids| ensures queue[i].receivedAt <= rows[r].receivedAt {
      assert Earlier(queue[i], queue[k]);
    }
  }

  function ClaimAll(rows: seq<Row>, ids: seq<RowId>, now: Time): (r: seq<Row>)
    ensures |r| == |rows| && forall i :: 0 <= i < |r| ==> r[i] == if i in ids then ClaimRow(rows[i], now) else rows[i]
  {
    seq(|rows|, i requires 0 <= i < |rows| => if i in ids then ClaimRow(rows[i], now) else rows[i])
  }

  /** Waiting and due, or held by a worker for more than five minutes. */
  predicate IsDue(row: Row, now: Time) {
    || (row.status == Received && row.nextAttemptAt <= now)
    || (row.status == FailedOnce && row.nextAttemptAt <= now)
    || (row.status == InProgress && row.lockedAt.Some? && now - row.lockedAt.value > 300_000)
  }

  /** A claim takes due rows only, at most ten, and locks them and counts an attempt; a due row it leaves
      behind arrived no earlier than the ten it took. */
  lemma ClaimTakesTheDue(rows: seq<Row>, now: Time, r: RowId)
    requires r < |rows|
    ensures var ids := FirstClaimable(rows, now);
      var after := ClaimAll(rows, ids, now);
      && |ids| <= 10 && |after| == |rows|
      && after[r] == (if r in ids then rows[r].(status := InProgress, lockedAt := Some(now), attempts := rows[r].attempts + 1) else rows[r])
      && (r in ids ==> IsDue(rows[r], now))
      && (IsDue(rows[r], now) && r !in ids ==>
            |ids| == 10 && forall i :: 0 <= i < 10 ==> ids[i] < |rows| && rows[ids[i]].receivedAt <= rows[r].receivedAt)
  {
    BatchIsOldest(rows, now);
  }

  // ------------------------------------------------------------------- the table

  class Queue {
    var rows: seq<Row>

    constructor ()
      ensures rows == []
    {
      rows := [];
    }

    method Enqueue(provider: nat, eventId: nat, ignored: bool, now: Time) returns (r: EnqueueResult)
      modifies this
      ensures r == Duplicate <==> exists i :: 0 <= i < |old(rows)| && old(rows)[i].provider == provider && old(rows)[i].eventId == eventId
      ensures rows == if r == Duplicate then old(rows)
                      else old(rows) + [Row(provider, eventId, ignored, if ignored then Processed else Received, 0, now, now, None)]
      ensures rows == StoreOnce(old(rows), NewEvent(provider, eventId, ignored, now))
    {
      if Stored(rows, provider, eventId) { return Duplicate; }
      rows := rows + [NewEvent(provider, eventId, ignored, now)];
      return Queued;
    }

    /** An event that was authenticated but not understood. */
    method RecordMalformed(provider: nat, eventId: nat, now: Time)
      modifies this
      ensures rows == if exists i :: 0 <= i < |old(rows)| && old(rows)[i].provider == provider && old(rows)[i].eventId == eventId then old(rows)
                      else old(rows) + [Row(provider, eventId, false, Dead, 0, now, now, None)]
      ensures rows == StoreOnce(old(rows), MalformedEvent(provider, eventId, now))
    {
      if !Stored(rows, provider, eventId) {
        rows := rows + [MalformedEvent(provider, eventId, now)];
      }
    }

    /** Takes the ten oldest due rows; each claim counts as an attempt. */
    method ClaimBatch(now: Time) returns (ids: seq<RowId>)
      modifies this
      ensures ids == FirstClaimable(old(rows), now)
      ensures rows == ClaimAll(old(rows), ids, now)
    {
      ids := FirstClaimable(rows, now);
      rows := ClaimAll(rows, ids, now);
    }

    method RunOne(id: RowId, attempts: nat, ok: bool, now: Time)
      requires id < |rows|
      modifies this
      ensures rows == old(rows)[id := Settle(old(rows)[id], attempts, ok, now)]
      ensures rows[id] == if ok then old(rows)[id].(status := Processed, lockedAt := None)
                          else old(rows)[id].(status := if attempts >= 8 then Dead else FailedOnce, lockedAt := None,
                                              nextAttemptAt := now + BackoffMs(attempts))
    {
      var row := rows[id];
      if ok {
        rows := rows[id := row.(status := Processed, lockedAt := None)];
      } else {
        var dead := attempts >= MAX_ATTEMPTS;
        rows := rows[id := row.(status := if dead then Dead else FailedOnce, lockedAt := None, nextAttemptAt := now + BackoffMs(attempts))];
      }
    }

    /** Handles one claimed batch, row by row. */
    method RunBatch(ids: seq<RowId>, ok: (RowId, nat) -> bool, now: Time)
      requires Distinct(ids) && forall i :: 0 <= i < |ids| ==> ids[i] < |rows|
      modifies this
      ensures |rows| == |old(rows)|
      ensures forall r: RowId :: r < |rows| ==>
        rows[r] == if r in ids then Settle(old(rows)[r], old(rows)[r].attempts, ok(r, old(rows)[r].attempts), now) else old(rows)[r]
    {
      for k := 0 to |ids|
        invariant |rows| == |old(rows)|
        invariant forall r: RowId :: r < |rows| ==>
          rows[r] == if r in ids[..k] then Settle(old(rows)[r], old(rows)[r].attempts, ok(r, old(rows)[r].attempts), now) else old(rows)[r]
      {
        assert ids[k] !in ids[..k];
        assert ids[..k + 1] == ids[..k] + [ids[k]];
        var attempts := rows[ids[k]].attempts;
        RunOne(ids[k], attempts, ok(ids[k], attempts), now);
      }
      assert ids[..|ids|] == ids;
    }

    /** Handles everything due, batch by batch: each row at most once, every other row left
        alone, and nothing due left over unless the batches ran out. */
    method Drain(maxBatches: nat, ok: (RowId, nat) -> bool, now: Time) returns (handled: nat, ghost done: set<RowId>)
      modifies this
      ensures handled == |done| <= BATCH * maxBatches && Drained(old(rows), rows, done, ok, now)
      ensures handled == BATCH * maxBatches || NothingDue(rows, now)
    {
      handled := 0;
      done := {};
      for i := 0 to maxBatches
        invariant handled == |done| <= BATCH * i && Drained(old(rows), rows, done, ok, now)
        invariant handled == BATCH * i || NothingDue(rows, now)
      {
        ghost var before := rows;
        var ids := HandleBatch(ok, now);
        if ids == [] { break; }
        handled := handled + |ids|;
        ghost var batch := set r | r in ids;
        SetOfDistinct(ids, batch);
        OneMoreBatch(old(rows), before, rows, done, ids, batch, ok, now);
        done := done + batch;
      }
    }

    /** Claims one batch and runs it. */
    method HandleBatch(ok: (RowId, nat) -> bool, now: Time) returns (ids: seq<RowId>)
      modifies this
      ensures BatchHandled(old(rows), rows, ids, ok, now)
    {
      BatchIsOldest(rows, now);
      ids := ClaimBatch(now);
      RunBatch(ids, ok, now);
    }
  }

  /** A batch of due rows was handled, and only that; short of ten, it was all there was. */
  ghost predicate BatchHandled(before: seq<Row>, after: seq<Row>, ids: seq<RowId>, ok: (RowId, nat) -> bool, now: Time) {
    && |after| == |before| && Distinct(ids) && |ids| <= BATCH
    && (forall i :: 0 <= i < |ids| ==> ids[i] < |before| && Claimable(before[ids[i]], now))
    && (forall r: RowId :: r < |before| ==>
          after[r] == if r in ids then Handled(before[r], ok(r, before[r].attempts + 1), now) else before[r])
    && (|ids| < BATCH ==> forall r: RowId :: r < |before| && Claimable(before[r], now) ==> r in ids)
  }

  ghost predicate NothingDue(rows: seq<Row>, now: Time) {
    forall r: RowId :: r < |rows| ==> !Claimable(rows[r], now)
  }

  /** The rows of `done` were due and have been handled once; the others are as they were. */
  ghost predicate Drained(was: seq<Row>, rows: seq<Row>, done: set<RowId>, ok: (RowId, nat) -> bool, now: Time) {
    && |rows| == |was|
    && (forall r: RowId :: r in done ==> r < |was| && Claimable(was[r], now))
    && (forall r: RowId :: r < |was| ==> rows[r] == if r in done then Handled(was[r], ok(r, was[r].attempts + 1), now) else was[r])
  }

  lemma OneMoreBatch(was: seq<Row>, before: seq<Row>, after: seq<Row>, done: set<RowId>, ids: seq<RowId>, batch: set<RowId>,
      ok: (RowId, nat) -> bool, now: Time)
    requires Drained(was, before, done, ok, now) && BatchHandled(before, after, ids, ok, now)
    requires forall r :: r in batch <==> r in ids
    ensures done !! batch && Drained(was, after, done + batch, ok, now)
    ensures |ids| < BATCH ==> NothingDue(after, now)
  {
    BatchIsFresh(was, before, done, ids, ok, now);
    BatchSettled(before, after, ids, ok, now);
  }

  lemma {:induction false} SetOfDistinct(ids: seq<RowId>, batch: set<RowId>)
    requires Distinct(ids) && forall r :: r in batch <==> r in ids
    ensures |batch| == |ids|
  {
    if ids != [] {
      var front, last := ids[..|ids| - 1], ids[|ids| - 1];
      assert ids == front + [last];
      SetOfDistinct(front, batch - {last});
    }
  }

  /** A drain never comes back to a row it has handled. */
  lemma BatchIsFresh(was: seq<Row>, before: seq<Row>, done: set<RowId>, ids: seq<RowId>, ok: (RowId, nat) -> bool, now: Time)
    requires |before| == |was|
    requires forall r: RowId :: r < |was| ==> before[r] == if r in done then Handled(was[r], ok(r, was[r].attempts + 1), now) else was[r]
    requires forall i :: 0 <= i < |ids| ==> ids[i] < |before| && Claimable(before[ids[i]], now)
    ensures forall r :: r in ids ==> r !in done
  {
    forall r | r in ids ensures r !in done {
      HandledIsNotClaimable(was[r], ok(r, was[r].attempts + 1), now);
    }
  }

  /** After a batch short of ten nothing is due any more. */
  lemma BatchSettled(before: seq<Row>, after: seq<Row>, ids: seq<RowId>, ok: (RowId, nat) -> bool, now: Time)
    requires |after| == |before|
    requires forall r: RowId :: r < |before| ==>
      after[r] == if r in ids then Handled(before[r], ok(r, before[r].attempts + 1), now) else before[r]
    requires |ids| < BATCH ==> forall r: RowId :: r < |before| && Claimable(before[r], now) ==> r in ids
    ensures |ids| < BATCH ==> forall r: RowId :: r < |after| ==> !Claimable(after[r], now)
  {
    forall r: RowId | r < |after| && r in ids ensures !Claimable(after[r], now) {
      HandledIsNotClaimable(before[r], ok(r, before[r].attempts + 1), now);
    }
  }
}
