/** Many workers on one event queue: claims, crashes, stalls and stale reclaims in any order. */
module QueueRuns {
  import opened Wrappers
  import opened Tables
  import opened Runs
  import opened WebhookQueue

  /** How far a worker got with a row it claimed; `Gone` once it wrote its outcome or died. */
  datatype Phase = Held | Running | Returned(ok: bool) | Gone

  /** One claim: the row, the attempt number it was given, and the handler call made for it. */
  datatype Claim = Claim(row: RowId, attempt: nat, phase: Phase, entered: bool)

  /** The table and its workers; `returned` and `reclaimed` record which rows a handler ever
      returned normally for, and which were ever taken from a worker that still held them. */
  datatype World = World(rows: seq<Row>, claims: seq<Claim>, now: Time, returned: set<RowId>, reclaimed: set<RowId>)

  const EMPTY := World([], [], 0, {}, {})

  datatype Step =
    | Enqueue(provider: nat, eventId: nat, ignored: bool)
    | Malformed(provider: nat, eventId: nat)
    | Take(row: RowId)             // a claim of a batch is one such step for each of its rows
    | Enter(claim: nat)            // the worker calls the handler
    | Return(claim: nat, ok: bool) // the handler returns or throws
    | Write(claim: nat)            // the worker records the outcome
    | Die(claim: nat)
    | Tick(ms: nat)

  predicate InPhase(w: World, c: nat, p: Phase) { c < |w.claims| && w.claims[c].phase == p }

  predicate Enabled(w: World, step: Step) {
    match step
    case Enqueue(_, _, _) => true
    case Malformed(_, _) => true
    case Take(r) => r < |w.rows| && Claimable(w.rows[r], w.now)
    case Enter(c) => InPhase(w, c, Held)
    case Return(c, _) => InPhase(w, c, Running)
    case Write(c) => c < |w.claims| && w.claims[c].phase.Returned? && w.claims[c].row < |w.rows|
    case Die(c) => c < |w.claims|
    case Tick(_) => true
  }

  function Next(w: World, step: Step): World {
    if !Enabled(w, step) then w
    else match step
      case Enqueue(provider, eventId, ignored) => w.(rows := StoreOnce(w.rows, NewEvent(provider, eventId, ignored, w.now)))
      case Malformed(provider, eventId) => w.(rows := StoreOnce(w.rows, MalformedEvent(provider, eventId, w.now)))
      case Take(r) =>
        w.(rows := w.rows[r := ClaimRow(w.rows[r], w.now)],
           claims := w.claims + [Claim(r, w.rows[r].attempts + 1, Held, false)],
           reclaimed := if w.rows[r].status == InProgress then w.reclaimed + {r} else w.reclaimed)
      case Enter(c) => w.(claims := w.claims[c := w.claims[c].(phase := Running, entered := true)])
      case Return(c, ok) =>
        w.(claims := w.claims[c := w.claims[c].(phase := Returned(ok))],
           returned := if ok then w.returned + {w.claims[c].row} else w.returned)
      case Write(c) =>
        var claim := w.claims[c];
        w.(rows := w.rows[claim.row := Settle(w.rows[claim.row], claim.attempt, claim.phase.ok, w.now)],
           claims := w.claims[c := claim.(phase := Gone)])
      case Die(c) => w.(claims := w.claims[c := w.claims[c].(phase := Gone)])
      case Tick(ms) => w.(now := w.now + ms)
  }

  function After(w: World, steps: seq<Step>): World { Run(Next, w, steps) }

  // -------------------------------------------------------------- the invariant

  ghost predicate UniqueEvents(rows: seq<Row>) {
    forall i, j :: 0 <= i < j < |rows| ==> !SameEvent(rows[i], rows[j].provider, rows[j].eventId)
  }

  /** A row waits a bounded time, whoever had it. */
  ghost predicate Bounded(row: Row, now: Time) {
    && (row.status == InProgress <==> row.lockedAt.Some?)
    && (row.lockedAt.Some? ==> row.lockedAt.value <= now)
    && (row.status in {Received, FailedOnce} ==> row.nextAttemptAt <= now + 640_000)
  }

  /** Handled events were handled: an event worth handling is closed as processed only after
      its handler returned normally. */
  ghost predicate Honest(w: World, r: RowId)
    requires r < |w.rows|
  {
    && (w.rows[r].status == Processed && !w.rows[r].ignored ==> r in w.returned)
  }

  /** How many times a row was claimed. */
  function Claims(claims: seq<Claim>, r: RowId): nat {
    if claims == [] then 0
    else Claims(claims[..|claims| - 1], r) + if claims[|claims| - 1].row == r then 1 else 0
  }

  /** How many times the handler was called for a row. */
  function Entries(claims: seq<Claim>, r: RowId): nat {
    if claims == [] then 0
    else Entries(claims[..|claims| - 1], r) + if claims[|claims| - 1].row == r && claims[|claims| - 1].entered then 1 else 0
  }

  predicate Live(claim: Claim, r: RowId) { claim.row == r && claim.phase != Gone }

  /** What a row that was never reclaimed keeps. */
  ghost predicate Orderly(w: World, r: RowId)
    requires r < |w.rows|
  {
    && w.rows[r].attempts <= MAX_ATTEMPTS
    && (w.rows[r].status == Received ==> w.rows[r].attempts == 0)
    && (w.rows[r].status == FailedOnce ==> w.rows[r].attempts < MAX_ATTEMPTS)
    && (forall c :: 0 <= c < |w.claims| && Live(w.claims[c], r) ==> w.rows[r].status == InProgress && w.claims[c].attempt == w.rows[r].attempts)
    && (forall c :: 0 <= c < |w.claims| && w.claims[c].row == r ==> w.claims[c].attempt <= w.rows[r].attempts)
    && (forall c, d :: 0 <= c < d < |w.claims| && w.claims[c].row == r && w.claims[d].row == r ==> w.claims[c].attempt < w.claims[d].attempt)
  }

  ghost predicate ClaimOk(w: World, c: nat)
    requires c < |w.claims|
  {
    && w.claims[c].row < |w.rows|
    && (w.claims[c].phase == Returned(true) ==> w.claims[c].row in w.returned)
    && (w.claims[c].phase == Held ==> !w.claims[c].entered)
  }

  ghost predicate RowOk(w: World, r: RowId)
    requires r < |w.rows|
  {
    && Bounded(w.rows[r], w.now) && Honest(w, r)
    && Claims(w.claims, r) == w.rows[r].attempts
    && (r !in w.reclaimed ==> Orderly(w, r))
  }

  ghost predicate Inv(w: World) {
    && UniqueEvents(w.rows)
    && (forall c: nat {:trigger ClaimOk(w, c)} :: c < |w.claims| ==> ClaimOk(w, c))
    && (forall r: RowId {:trigger RowOk(w, r)} :: r < |w.rows| ==> RowOk(w, r))
    && (forall r :: r in w.reclaimed ==> r < |w.rows|)
  }

  // ------------------------------------------------------------ counting claims

  lemma {:induction false} ClaimsUpdate(claims: seq<Claim>, c: nat, x: Claim, r: RowId)
    requires c < |claims| && x.row == claims[c].row
    ensures Claims(claims[c := x], r) == Claims(claims, r)
  {
    var n, claims' := |claims| - 1, claims[c := x];
    if c == n {
      assert claims'[..n] == claims[..n];
    } else {
      assert claims'[..n] == claims[..n][c := x];
      ClaimsUpdate(claims[..n], c, x, r);
    }
  }

  lemma ClaimsAppend(claims: seq<Claim>, x: Claim, r: RowId)
    ensures Claims(claims + [x], r) == Claims(claims, r) + if x.row == r then 1 else 0
  {
    assert (claims + [x])[..|claims|] == claims;
  }

  lemma {:induction false} NoClaims(claims: seq<Claim>, r: RowId)
    requires forall c :: 0 <= c < |claims| ==> claims[c].row != r
    ensures Claims(claims, r) == 0
  {
    if claims != [] { NoClaims(claims[..|claims| - 1], r); }
  }

  /** The handler is called at most once for each claim. */
  lemma {:induction false} EntriesWithinClaims(claims: seq<Claim>, r: RowId)
    ensures Entries(claims, r) <= Claims(claims, r)
  {
    if claims != [] { EntriesWithinClaims(claims[..|claims| - 1], r); }
  }

  // ------------------------------------------------------------------ every step

  lemma StoreKeeps(w: World, row: Row)
    requires Inv(w) && row.attempts == 0 && row.lockedAt.None? && row.nextAttemptAt == w.now
    requires row.status in {Received, Dead} || (row.status == Processed && row.ignored)
    ensures Inv(w.(rows := StoreOnce(w.rows, row)))
  {
    var w' := w.(rows := StoreOnce(w.rows, row));
    forall c: nat | c < |w'.claims| ensures ClaimOk(w', c) && w.claims[c].row < |w.rows| {
      assert ClaimOk(w, c);
    }
    forall r: RowId | r < |w'.rows| ensures RowOk(w', r) {
      if r < |w.rows| {
        assert RowOk(w, r);
      } else {
        NoClaims(w.claims, r);
      }
    }
  }

  lemma TakeKeepsRow(w: World, r: RowId, x: RowId)
    requires Inv(w) && Enabled(w, Take(r)) && x < |w.rows|
    ensures x < |Next(w, Take(r)).rows| && RowOk(Next(w, Take(r)), x)
  {
    var w' := Next(w, Take(r));
    assert RowOk(w, x);
    ClaimsAppend(w.claims, Claim(r, w.rows[r].attempts + 1, Held, false), x);
    if x !in w'.reclaimed {
      forall c | 0 <= c < |w'.claims| && w'.claims[c].row == x
        ensures w'.claims[c].attempt <= w'.rows[x].attempts
        ensures Live(w'.claims[c], x) ==> w'.rows[x].status == InProgress && w'.claims[c].attempt == w'.rows[x].attempts
      {
        if c < |w.claims| { assert w'.claims[c] == w.claims[c]; }
      }
      forall c, d | 0 <= c < d < |w'.claims| && w'.claims[c].row == x && w'.claims[d].row == x
        ensures w'.claims[c].attempt < w'.claims[d].attempt
      {
        assert w'.claims[c] == w.claims[c];
      }
    }
  }

  lemma TakeKeeps(w: World, r: RowId)
    requires Inv(w) && Enabled(w, Take(r))
    ensures Inv(Next(w, Take(r)))
  {
    var w' := Next(w, Take(r));
    forall c: nat | c < |w'.claims| ensures ClaimOk(w', c) {
      if c < |w.claims| { assert ClaimOk(w, c); }
    }
    forall x: RowId | x < |w'.rows| ensures RowOk(w', x) {
      TakeKeepsRow(w, r, x);
    }
  }

  /** A worker moving on with a claim it holds, or dying. */
  lemma PhaseKeeps(w: World, c: nat, x: Claim, returned: set<RowId>)
    requires Inv(w) && c < |w.claims| && x == w.claims[c].(phase := x.phase, entered := x.entered)
    requires x.phase != Gone ==> w.claims[c].phase != Gone
    requires x.phase == Held ==> !x.entered
    requires w.returned <= returned && (x.phase == Returned(true) ==> x.row in returned)
    ensures Inv(w.(claims := w.claims[c := x], returned := returned))
  {
    var w' := w.(claims := w.claims[c := x], returned := returned);
    forall d: nat | d < |w'.claims| ensures ClaimOk(w', d) {
      assert ClaimOk(w, d);
    }
    forall r: RowId | r < |w'.rows| ensures RowOk(w', r) {
      assert RowOk(w, r);
      ClaimsUpdate(w.claims, c, x, r);
    }
  }

  lemma WriteKeepsRow(w: World, c: nat, r: RowId)
    requires Inv(w) && Enabled(w, Write(c)) && r < |w.rows|
    ensures r < |Next(w, Write(c)).rows| && RowOk(Next(w, Write(c)), r)
  {
    assert RowOk(w, r) && ClaimOk(w, c);
    var claim := w.claims[c];
    ClaimsUpdate(w.claims, c, claim.(phase := Gone), r);
    if claim.row == r && !claim.phase.ok && claim.attempt < MAX_ATTEMPTS { RetriesComeSoon(claim.attempt); }
    if claim.row == r && r !in w.reclaimed { SoleWorker(w, c, r); }
  }

  /** Nobody else holds a row that was never reclaimed. */
  lemma SoleWorker(w: World, c: nat, r: RowId)
    requires Inv(w) && r < |w.rows| && r !in w.reclaimed && c < |w.claims| && Live(w.claims[c], r)
    ensures forall d :: 0 <= d < |w.claims| && Live(w.claims[d], r) ==> d == c
  {
    assert RowOk(w, r);
    forall d | 0 <= d < |w.claims| && Live(w.claims[d], r) ensures d == c {
      assert w.claims[d].attempt == w.claims[c].attempt;
    }
  }

  lemma WriteKeeps(w: World, c: nat)
    requires Inv(w) && Enabled(w, Write(c))
    ensures Inv(Next(w, Write(c)))
  {
    var w' := Next(w, Write(c));
    forall d: nat | d < |w'.claims| ensures ClaimOk(w', d) {
      assert ClaimOk(w, d);
    }
    forall r: RowId | r < |w'.rows| ensures RowOk(w', r) {
      WriteKeepsRow(w, c, r);
    }
  }

  lemma TickKeeps(w: World, ms: nat)
    requires Inv(w)
    ensures Inv(w.(now := w.now + ms))
  {
    var w' := w.(now := w.now + ms);
    forall c: nat | c < |w'.claims| ensures ClaimOk(w', c) { assert ClaimOk(w, c); }
    forall r: RowId | r < |w'.rows| ensures RowOk(w', r) { assert RowOk(w, r); }
  }

  lemma StepKeepsInv(w: World, step: Step)
    requires Inv(w)
    ensures Inv(Next(w, step))
  {
    if Enabled(w, step) {
      match step
      case Enqueue(provider, eventId, ignored) => StoreKeeps(w, NewEvent(provider, eventId, ignored, w.now));
      case Malformed(provider, eventId) => StoreKeeps(w, MalformedEvent(provider, eventId, w.now));
      case Take(r) => TakeKeeps(w, r);
      case Enter(c) => PhaseKeeps(w, c, w.claims[c].(phase := Running, entered := true), w.returned);
      case Return(c, ok) =>
        PhaseKeeps(w, c, w.claims[c].(phase := Returned(ok)), if ok then w.returned + {w.claims[c].row} else w.returned);
        assert ok || w.(returned := w.returned) == w;
      case Write(c) => WriteKeeps(w, c);
      case Die(c) => PhaseKeeps(w, c, w.claims[c].(phase := Gone), w.returned);
      case Tick(ms) => TickKeeps(w, ms);
    }
  }

  lemma {:induction false} RunKeepsInv(w: World, steps: seq<Step>)
    requires Inv(w)
    ensures Inv(After(w, steps))
  {
    if steps != [] {
      RunKeepsInv(w, steps[..|steps| - 1]);
      StepKeepsInv(After(w, steps[..|steps| - 1]), steps[|steps| - 1]);
    }
  }

  // --------------------------------------------------------------- main results

  /** However workers race, die and stall: an event is stored once, and an event worth handling
      is marked processed only after its handler returned normally. */
  lemma StoredOnceHandledHonestly(steps: seq<Step>, r: RowId)
    requires r < |After(EMPTY, steps).rows|
    ensures var w := After(EMPTY, steps);
      && UniqueEvents(w.rows)
      && (w.rows[r].status == Processed && !w.rows[r].ignored ==> r in w.returned)
  {
    RunKeepsInv(EMPTY, steps);
    assert RowOk(After(EMPTY, steps), r);
  }

  /** No event is ever stuck: whatever became of its workers, 640 seconds on at the latest it
      is processed, dead, or free to be claimed. */
  lemma NothingIsStuck(steps: seq<Step>, r: RowId, later: Time)
    requires r < |After(EMPTY, steps).rows| && After(EMPTY, steps).now + 640_000 <= later
    ensures var row := After(EMPTY, steps).rows[r]; row.status in {Processed, Dead} || Claimable(row, later)
  {
    RunKeepsInv(EMPTY, steps);
    assert RowOk(After(EMPTY, steps), r);
  }

  /** An event that was never taken from a stalled worker is handled at most eight times, by
      one worker at a time. */
  lemma EightTimesOneAtATime(steps: seq<Step>, r: RowId)
    requires var w := After(EMPTY, steps); r < |w.rows| && r !in w.reclaimed
    ensures var w := After(EMPTY, steps);
      && Entries(w.claims, r) <= MAX_ATTEMPTS
      && forall c, d :: 0 <= c < |w.claims| && 0 <= d < |w.claims| && Live(w.claims[c], r) && Live(w.claims[d], r) ==> c == d
  {
    var w := After(EMPTY, steps);
    RunKeepsInv(EMPTY, steps);
    assert RowOk(w, r);
    EntriesWithinClaims(w.claims, r);
    forall c, d | 0 <= c < |w.claims| && 0 <= d < |w.claims| && Live(w.claims[c], r) && Live(w.claims[d], r) ensures c == d {
      SoleWorker(w, c, r);
    }
  }

  /** The one write that reopens a closed event: a worker that still holds it reports a failure. */
  predicate LateFailure(w: World, step: Step, r: RowId) {
    step.Write? && Enabled(w, step) && w.claims[step.claim].row == r && !w.claims[step.claim].phase.ok && w.claims[step.claim].attempt < MAX_ATTEMPTS
  }

  /** A processed event stays closed exactly unless a late failure is written over it. */
  lemma ClosedUnlessLateFailure(w: World, step: Step, r: RowId)
    requires r < |w.rows| && w.rows[r].status in {Processed, Dead}
    ensures r < |Next(w, step).rows|
    ensures Next(w, step).rows[r].status in {Processed, Dead} <==> !LateFailure(w, step, r)
  {
  }

  /** An event that is never reclaimed therefore stays closed for good. */
  lemma {:induction false} ClosedForGood(w: World, steps: seq<Step>, r: RowId)
    requires Inv(w) && r < |w.rows| && w.rows[r].status in {Processed, Dead}
    requires r !in After(w, steps).reclaimed
    ensures r < |After(w, steps).rows| && After(w, steps).rows[r] == w.rows[r]
  {
    if steps != [] {
      var front, last := steps[..|steps| - 1], steps[|steps| - 1];
      var mid := After(w, front);
      ReclaimedStays(mid, last, r);
      ClosedForGood(w, front, r);
      RunKeepsInv(w, front);
      assert RowOk(mid, r);
    }
  }

  lemma ReclaimedStays(w: World, step: Step, r: RowId)
    ensures r in w.reclaimed ==> r in Next(w, step).reclaimed
  {
  }

  /** One event and two workers: the first stalls past its lock, the second handles the event, */
  function StalledRun(): seq<Step> {
    [Enqueue(0, 0, false), Take(0), Enter(0)] + [Tick(300_001), Take(0), Enter(1)] + [Return(1, true), Write(1), Tick(1)]
  }

  /** and then the first one's failure is written over it. */
  function LateReturn(): seq<Step> { [Return(0, false), Write(0), Tick(1)] }

  lemma FirstWorkerStalls()
    ensures After(EMPTY, [Enqueue(0, 0, false), Take(0), Enter(0)])
         == World([ClaimRow(NewEvent(0, 0, false, 0), 0)], [Claim(0, 1, Running, true)], 0, {}, {})
  {
    RunThree(Next, EMPTY, Enqueue(0, 0, false), Take(0), Enter(0));
    assert Next(EMPTY, Enqueue(0, 0, false)).rows == [NewEvent(0, 0, false, 0)];
  }

  lemma SecondWorkerTakes(w: World)
    requires w == World([ClaimRow(NewEvent(0, 0, false, 0), 0)], [Claim(0, 1, Running, true)], 0, {}, {})
    ensures var v := After(w, [Tick(300_001), Take(0), Enter(1)]);
      && v.claims == [Claim(0, 1, Running, true), Claim(0, 2, Running, true)]
      && v.rows == [Row(0, 0, false, InProgress, 2, 0, 0, Some(300_001))]
  {
    RunThree(Next, w, Tick(300_001), Take(0), Enter(1));
  }

  lemma SecondWorkerWrites(v: World)
    requires v.claims == [Claim(0, 1, Running, true), Claim(0, 2, Running, true)]
    requires v.rows == [Row(0, 0, false, InProgress, 2, 0, 0, Some(300_001))]
    ensures var u := After(v, [Return(1, true), Write(1), Tick(1)]);
      && u.rows == [Row(0, 0, false, Processed, 2, 0, 0, None)]
      && u.claims == [Claim(0, 1, Running, true), Claim(0, 2, Gone, true)]
  {
    RunThree(Next, v, Return(1, true), Write(1), Tick(1));
  }

  lemma SecondWorkerHandles()
    ensures After(EMPTY, StalledRun()).rows == [Row(0, 0, false, Processed, 2, 0, 0, None)]
    ensures After(EMPTY, StalledRun()).claims == [Claim(0, 1, Running, true), Claim(0, 2, Gone, true)]
  {
    FirstWorkerStalls();
    var w := After(EMPTY, [Enqueue(0, 0, false), Take(0), Enter(0)]);
    SecondWorkerTakes(w);
    SecondWorkerWrites(After(w, [Tick(300_001), Take(0), Enter(1)]));
    RunConcat(Next, EMPTY, [Enqueue(0, 0, false), Take(0), Enter(0)] + [Tick(300_001), Take(0), Enter(1)], [Return(1, true), Write(1), Tick(1)]);
    RunConcat(Next, EMPTY, [Enqueue(0, 0, false), Take(0), Enter(0)], [Tick(300_001), Take(0), Enter(1)]);
  }

  /** A processed event can be reopened, when a worker outlives its lock. */
  lemma ProcessedIsNotFinal()
    ensures |After(EMPTY, StalledRun()).rows| == 1 && After(EMPTY, StalledRun()).rows[0].status == Processed
    ensures |After(EMPTY, StalledRun() + LateReturn()).rows| == 1
    ensures After(EMPTY, StalledRun() + LateReturn()).rows[0].status == FailedOnce
  {
    SecondWorkerHandles();
    RunConcat(Next, EMPTY, StalledRun(), LateReturn());
    RunThree(Next, After(EMPTY, StalledRun()), Return(0, false), Write(0), Tick(1));
  }
}
