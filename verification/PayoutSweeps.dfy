/** Dispatches, approvals and payout sweeps as runs of the transition system, and what a sweep can
    and cannot put right (src/services/withdrawal.service.ts, src/jobs/reconciliation.ts:76-108). */
module PayoutSweeps {
  import opened StateMachine
  import opened Tables
  import opened Runs
  import opened Sorting
  import opened Ledger
  import opened Books
  import opened Solvency
  import opened Withdrawal
  import opened Approval
  import opened PayoutFacts
  import opened Reconciliation
  import opened Protocol
  import opened PayoutRuns

  // ---------------------------------------------------------------- one dispatch

  /** A reply this dispatcher may see, kept or late, given what the provider holds. */
  predicate Consistent(answer: Answer, remote: Remote) {
    match answer
    case NoReply => true
    case Refused => remote.Unknown? || remote.Declined?
    case Accepted(state) => remote.Unknown? || (remote.Taken? && Reports(state, remote.state))
  }

  /** What the provider may have said at some time of a payout that has now got so far. */
  predicate Reports(state: PayoutState, bank: BankState) {
    match state
    case StillMoving => true
    case Succeeded => bank in {Moving, PaidOut, Returned}
    case DidFail => bank in {Moving, Bounced, Returned}
  }

  function DispatchSteps(db: Db, p: PayoutId, answer: Answer): seq<Step>
    requires p < |db.payouts|
  {
    var row := db.payouts[p];
    if row.status != Pending then []
    else if row.destinationId.None? then [OnPayout(p, NoDestination)]
    else match answer
      case NoReply => [OnPayout(p, Ask)]
      case Refused => [OnPayout(p, Ask), Receive(CallFor(row), false), OnPayout(p, RefusalArrives)]
      case Accepted(StillMoving) => [OnPayout(p, Ask), Receive(CallFor(row), true), OnPayout(p, AcceptanceArrives)]
      case Accepted(Succeeded) => TakenSteps(row, p, PaidOut, SuccessArrives)
      case Accepted(DidFail) => TakenSteps(row, p, Bounced, FailureArrives)
  }

  function TakenSteps(row: Payout, p: PayoutId, to: BankState, report: PayoutMove): seq<Step>
    requires row.destinationId.Some?
  {
    [OnPayout(p, Ask), Receive(CallFor(row), true), Progress(row.reference, to), OnPayout(p, AcceptanceArrives), OnPayout(p, report)]
  }

  predicate MayBeSent(sys: Sys, p: PayoutId) {
    p < |sys.db.payouts| && sys.db.payouts[p].status == Pending && sys.db.payouts[p].destinationId.Some?
  }

  /** A call sent off and arrived. */
  lemma Reached(sys: Sys, p: PayoutId, takes: bool)
    requires MayBeSent(sys, p)
    ensures var call := CallFor(sys.db.payouts[p]);
      var end := Next(Next(sys, OnPayout(p, Ask)), Receive(call, takes));
      && end.db == sys.db && end.now == sys.now
      && RemoteOf(end, p) == Answered(RemoteOf(sys, p), call, takes)
  {
  }

  lemma Reported(sys: Sys, p: PayoutId, report: PayoutMove)
    requires p < |sys.db.payouts| && report in {SuccessArrives, FailureArrives}
    requires RemoteOf(sys, p).Taken? && MoveEnabled(sys, p, report)
    ensures Next(Next(sys, OnPayout(p, AcceptanceArrives)), OnPayout(p, report)).db
         == MovePayout(MarkProcessingTx(sys.db, p), p, report)
  {
    var mid := Next(sys, OnPayout(p, AcceptanceArrives));
    assert |mid.db.payouts| == |sys.db.payouts| && RemoteOf(mid, p) == RemoteOf(sys, p);
  }

  lemma Progressed(sys: Sys, p: PayoutId, to: BankState)
    requires p < |sys.db.payouts| && RemoteOf(sys, p).Taken? && to in {PaidOut, Bounced}
    requires RemoteOf(sys, p).state in {Moving, Returned, to}
    ensures var end := Next(sys, Progress(sys.db.payouts[p].reference, to));
      end.db == sys.db && RemoteOf(end, p).Taken? && RemoteOf(end, p).state in {to, Returned}
  {
  }

  lemma RefusalNoted(sys: Sys, p: PayoutId)
    requires p < |sys.db.payouts| && RemoteOf(sys, p).Declined?
    ensures Next(sys, OnPayout(p, RefusalArrives)).db == FailTx(sys.db, p)
  {
  }

  lemma RefusedIsARun(sys: Sys, p: PayoutId)
    requires MayBeSent(sys, p) && Consistent(Refused, RemoteOf(sys, p))
    ensures After(sys, DispatchSteps(sys.db, p, Refused)).db == FailTx(sys.db, p)
  {
    var ask, call := OnPayout(p, Ask), Receive(CallFor(sys.db.payouts[p]), false);
    Reached(sys, p, false);
    RunThree(Next, sys, ask, call, OnPayout(p, RefusalArrives));
    RefusalNoted(Next(Next(sys, ask), call), p);
  }

  lemma AcceptanceNoted(sys: Sys, p: PayoutId)
    requires p < |sys.db.payouts| && RemoteOf(sys, p).Taken?
    ensures Next(sys, OnPayout(p, AcceptanceArrives)).db == MarkProcessingTx(sys.db, p)
  {
  }

  lemma MovingIsARun(sys: Sys, p: PayoutId)
    requires MayBeSent(sys, p) && Consistent(Accepted(StillMoving), RemoteOf(sys, p))
    ensures After(sys, DispatchSteps(sys.db, p, Accepted(StillMoving))).db == MarkProcessingTx(sys.db, p)
  {
    var ask, call := OnPayout(p, Ask), Receive(CallFor(sys.db.payouts[p]), true);
    Reached(sys, p, true);
    RunThree(Next, sys, ask, call, OnPayout(p, AcceptanceArrives));
    AcceptanceNoted(Next(Next(sys, ask), call), p);
  }

  lemma TakenIsARun(sys: Sys, p: PayoutId, to: BankState, report: PayoutMove)
    requires MayBeSent(sys, p)
    requires (to == PaidOut && report == SuccessArrives) || (to == Bounced && report == FailureArrives)
    requires RemoteOf(sys, p).Unknown? || (RemoteOf(sys, p).Taken? && RemoteOf(sys, p).state in {Moving, to, Returned})
    ensures After(sys, TakenSteps(sys.db.payouts[p], p, to, report)).db == MovePayout(MarkProcessingTx(sys.db, p), p, report)
  {
    var row := sys.db.payouts[p];
    RunFive(Next, sys, OnPayout(p, Ask), Receive(CallFor(row), true), Progress(row.reference, to), OnPayout(p, AcceptanceArrives), OnPayout(p, report));
    Reached(sys, p, true);
    var reached := Next(Next(sys, OnPayout(p, Ask)), Receive(CallFor(row), true));
    Progressed(reached, p, to);
    Reported(Next(reached, Progress(row.reference, to)), p, report);
  }

  /** A whole dispatch, with whatever reply the provider's record allows, is a run of the
      system's own steps. */
  lemma DispatchIsARun(sys: Sys, p: PayoutId, answer: Answer)
    requires p < |sys.db.payouts| && Consistent(answer, RemoteOf(sys, p))
    ensures After(sys, DispatchSteps(sys.db, p, answer)).db == DispatchEffect(sys.db, p, answer)
  {
    if MayBeSent(sys, p) {
      SentIsARun(sys, p, answer);
    } else if sys.db.payouts[p].status == Pending {
      RunOne(Next, sys, OnPayout(p, NoDestination));
    }
  }

  lemma SentIsARun(sys: Sys, p: PayoutId, answer: Answer)
    requires MayBeSent(sys, p) && Consistent(answer, RemoteOf(sys, p))
    ensures After(sys, DispatchSteps(sys.db, p, answer)).db == DispatchEffect(sys.db, p, answer)
  {
    match answer
    case NoReply => RunOne(Next, sys, OnPayout(p, Ask));
    case Refused => RefusedIsARun(sys, p);
    case Accepted(StillMoving) => MovingIsARun(sys, p);
    case Accepted(_) => OutcomeIsARun(sys, p, answer);
  }

  lemma OutcomeIsARun(sys: Sys, p: PayoutId, answer: Answer)
    requires MayBeSent(sys, p) && answer.Accepted? && answer.state != StillMoving && Consistent(answer, RemoteOf(sys, p))
    ensures After(sys, DispatchSteps(sys.db, p, answer)).db == DispatchEffect(sys.db, p, answer)
  {
    if answer.state == Succeeded {
      TakenIsARun(sys, p, PaidOut, SuccessArrives);
    } else {
      TakenIsARun(sys, p, Bounced, FailureArrives);
    }
  }

  // ----------------------------------------------------------------- one refresh

  function RefreshSteps(db: Db, p: PayoutId, state: PayoutState): seq<Step>
    requires p < |db.payouts|
  {
    if db.payouts[p].status != Processing then []
    else match state
      case StillMoving => []
      case Succeeded => [Progress(db.payouts[p].reference, PaidOut), OnPayout(p, SuccessArrives)]
      case DidFail => [Progress(db.payouts[p].reference, Bounced), OnPayout(p, FailureArrives)]
  }

  /** Reading the provider's record of a processing withdrawal is a run too. */
  lemma RefreshIsARun(sys: Sys, p: PayoutId, state: PayoutState)
    requires p < |sys.db.payouts|
    requires sys.db.payouts[p].status == Processing ==> RemoteOf(sys, p).Taken? && Reports(state, RemoteOf(sys, p).state)
    ensures After(sys, RefreshSteps(sys.db, p, state)).db == Refreshed(sys.db, p, state)
  {
    if sys.db.payouts[p].status == Processing && state != StillMoving {
      var to, report := if state == Succeeded then PaidOut else Bounced, if state == Succeeded then SuccessArrives else FailureArrives;
      var move := Progress(sys.db.payouts[p].reference, to);
      RunTwo(Next, sys, move, OnPayout(p, report));
      Progressed(sys, p, to);
      assert MoveEnabled(Next(sys, move), p, report);
    }
  }

  // ------------------------------------------------------------------ whole sweeps

  /** Steps that write no record under this reference. */
  predicate Spares(steps: seq<Step>, r: Reference) { forall k :: 0 <= k < |steps| ==> !Records(steps[k], r) }

  lemma {:induction false} SparedIsKept(sys: Sys, steps: seq<Step>, r: Reference)
    requires Spares(steps, r)
    ensures RecordOf(After(sys, steps), r) == RecordOf(sys, r)
  {
    if steps != [] {
      SparedIsKept(sys, steps[..|steps| - 1], r);
      RecordFrame(After(sys, steps[..|steps| - 1]), steps[|steps| - 1], r);
    }
  }

  lemma DispatchSpares(db: Db, p: PayoutId, answer: Answer, r: Reference)
    requires p < |db.payouts| && r != db.payouts[p].reference
    ensures Spares(DispatchSteps(db, p, answer), r)
  {
  }

  lemma {:induction false} DispatchesKeepTerms(db: Db, ids: seq<PayoutId>, answers: PayoutId -> Answer, q: PayoutId)
    requires InRange(ids, db) && q < |db.payouts|
    ensures SameTerms(db.payouts[q], DispatchAll(db, ids, answers).payouts[q])
    ensures q !in ids ==> DispatchAll(db, ids, answers).payouts[q] == db.payouts[q]
  {
    if ids != [] {
      var n := |ids| - 1;
      DispatchesKeepTerms(db, ids[..n], answers, q);
      DispatchKeepsTerms(DispatchAll(db, ids[..n], answers), ids[n], answers(ids[n]), q);
    }
  }

  function DispatchAllSteps(db: Db, ids: seq<PayoutId>, answers: PayoutId -> Answer): seq<Step>
    requires InRange(ids, db)
  {
    if ids == [] then []
    else
      var n := |ids| - 1;
      DispatchAllSteps(db, ids[..n], answers) + DispatchSteps(DispatchAll(db, ids[..n], answers), ids[n], answers(ids[n]))
  }

  lemma {:induction false} DispatchesSpare(db: Db, ids: seq<PayoutId>, answers: PayoutId -> Answer, r: Reference)
    requires InRange(ids, db) && forall i :: 0 <= i < |ids| ==> r != db.payouts[ids[i]].reference
    ensures Spares(DispatchAllSteps(db, ids, answers), r)
  {
    if ids != [] {
      var n := |ids| - 1;
      DispatchesSpare(db, ids[..n], answers, r);
      DispatchesKeepTerms(db, ids[..n], answers, ids[n]);
      DispatchSpares(DispatchAll(db, ids[..n], answers), ids[n], answers(ids[n]), r);
    }
  }

  ghost predicate AnswersConsistent(sys: Sys, ids: seq<PayoutId>, answers: PayoutId -> Answer)
    requires InRange(ids, sys.db)
  {
    forall i :: 0 <= i < |ids| ==> Consistent(answers(ids[i]), RemoteOf(sys, ids[i]))
  }

  /** The retries of a sweep, each with a reply the provider's record allows, are a run. */
  lemma {:induction false} DispatchAllIsARun(sys: Sys, ids: seq<PayoutId>, answers: PayoutId -> Answer)
    requires ReferencesApart(sys.db.payouts) && Distinct(ids) && InRange(ids, sys.db) && AnswersConsistent(sys, ids, answers)
    ensures After(sys, DispatchAllSteps(sys.db, ids, answers)).db == DispatchAll(sys.db, ids, answers)
  {
    if ids != [] {
      var n := |ids| - 1;
      DispatchAllIsARun(sys, ids[..n], answers);
      LastRecordIsKept(sys, ids, answers);
      var front := DispatchAllSteps(sys.db, ids[..n], answers);
      RunConcat(Next, sys, front, DispatchSteps(After(sys, front).db, ids[n], answers(ids[n])));
      DispatchIsARun(After(sys, front), ids[n], answers(ids[n]));
    }
  }

  /** By the time its turn comes, the earlier retries have not touched a row's record. */
  lemma LastRecordIsKept(sys: Sys, ids: seq<PayoutId>, answers: PayoutId -> Answer)
    requires ReferencesApart(sys.db.payouts) && Distinct(ids) && InRange(ids, sys.db) && ids != []
    requires var n := |ids| - 1; After(sys, DispatchAllSteps(sys.db, ids[..n], answers)).db == DispatchAll(sys.db, ids[..n], answers)
    ensures var n := |ids| - 1;
      var mid := After(sys, DispatchAllSteps(sys.db, ids[..n], answers));
      ids[n] < |mid.db.payouts| && RemoteOf(mid, ids[n]) == RemoteOf(sys, ids[n])
  {
    var n := |ids| - 1;
    var r := sys.db.payouts[ids[n]].reference;
    forall i | 0 <= i < n ensures r != sys.db.payouts[ids[..n][i]].reference { SameRow(sys.db.payouts, ids[i], ids[n]); }
    DispatchesSpare(sys.db, ids[..n], answers, r);
    SparedIsKept(sys, DispatchAllSteps(sys.db, ids[..n], answers), r);
    DispatchesKeepTerms(sys.db, ids[..n], answers, ids[n]);
  }

  lemma {:induction false} RefreshesKeepTerms(db: Db, ids: seq<PayoutId>, states: PayoutId -> PayoutState, q: PayoutId)
    requires InRange(ids, db) && q < |db.payouts|
    ensures SameTerms(db.payouts[q], RefreshAll(db, ids, states).payouts[q])
    ensures q !in ids ==> RefreshAll(db, ids, states).payouts[q] == db.payouts[q]
  {
    if ids != [] {
      var n := |ids| - 1;
      RefreshesKeepTerms(db, ids[..n], states, q);
      RefreshKeepsTerms(RefreshAll(db, ids[..n], states), ids[n], states(ids[n]), q);
    }
  }

  function RefreshAllSteps(db: Db, ids: seq<PayoutId>, states: PayoutId -> PayoutState): seq<Step>
    requires InRange(ids, db)
  {
    if ids == [] then []
    else
      var n := |ids| - 1;
      RefreshAllSteps(db, ids[..n], states) + RefreshSteps(RefreshAll(db, ids[..n], states), ids[n], states(ids[n]))
  }

  lemma RefreshSpares(db: Db, p: PayoutId, state: PayoutState, r: Reference)
    requires p < |db.payouts| && r != db.payouts[p].reference
    ensures Spares(RefreshSteps(db, p, state), r)
  {
  }

  lemma {:induction false} RefreshesSpare(db: Db, ids: seq<PayoutId>, states: PayoutId -> PayoutState, r: Reference)
    requires InRange(ids, db) && forall i :: 0 <= i < |ids| ==> r != db.payouts[ids[i]].reference
    ensures Spares(RefreshAllSteps(db, ids, states), r)
  {
    if ids != [] {
      var n := |ids| - 1;
      RefreshesSpare(db, ids[..n], states, r);
      RefreshesKeepTerms(db, ids[..n], states, ids[n]);
      RefreshSpares(RefreshAll(db, ids[..n], states), ids[n], states(ids[n]), r);
    }
  }

  /** What the provider's record of a processing row may be read as. */
  predicate StateConsistent(state: PayoutState, row: Payout, remote: Remote) {
    row.status == Processing ==> remote.Taken? && Reports(state, remote.state)
  }

  ghost predicate StatesConsistent(sys: Sys, ids: seq<PayoutId>, states: PayoutId -> PayoutState)
    requires InRange(ids, sys.db)
  {
    forall i :: 0 <= i < |ids| ==> StateConsistent(states(ids[i]), sys.db.payouts[ids[i]], RemoteOf(sys, ids[i]))
  }

  /** The refreshes of a sweep are a run. */
  lemma {:induction false} RefreshAllIsARun(sys: Sys, ids: seq<PayoutId>, states: PayoutId -> PayoutState)
    requires ReferencesApart(sys.db.payouts) && Distinct(ids) && InRange(ids, sys.db) && StatesConsistent(sys, ids, states)
    ensures After(sys, RefreshAllSteps(sys.db, ids, states)).db == RefreshAll(sys.db, ids, states)
  {
    if ids != [] {
      var n := |ids| - 1;
      RefreshAllIsARun(sys, ids[..n], states);
      LastRowIsKept(sys, ids, states);
      var front := RefreshAllSteps(sys.db, ids[..n], states);
      RunConcat(Next, sys, front, RefreshSteps(After(sys, front).db, ids[n], states(ids[n])));
      RefreshIsARun(After(sys, front), ids[n], states(ids[n]));
    }
  }

  lemma LastRowIsKept(sys: Sys, ids: seq<PayoutId>, states: PayoutId -> PayoutState)
    requires ReferencesApart(sys.db.payouts) && Distinct(ids) && InRange(ids, sys.db) && ids != []
    requires var n := |ids| - 1; After(sys, RefreshAllSteps(sys.db, ids[..n], states)).db == RefreshAll(sys.db, ids[..n], states)
    ensures var n := |ids| - 1;
      var mid := After(sys, RefreshAllSteps(sys.db, ids[..n], states));
      && ids[n] < |mid.db.payouts| && mid.db.payouts[ids[n]] == sys.db.payouts[ids[n]]
      && RemoteOf(mid, ids[n]) == RemoteOf(sys, ids[n])
  {
    var n := |ids| - 1;
    var r := sys.db.payouts[ids[n]].reference;
    forall i | 0 <= i < n ensures r != sys.db.payouts[ids[..n][i]].reference { SameRow(sys.db.payouts, ids[i], ids[n]); }
    RefreshesSpare(sys.db, ids[..n], states, r);
    SparedIsKept(sys, RefreshAllSteps(sys.db, ids[..n], states), r);
    assert ids[n] !in ids[..n];
    RefreshesKeepTerms(sys.db, ids[..n], states, ids[n]);
  }

  function CancelSteps(ids: seq<PayoutId>): (steps: seq<Step>)
    ensures |steps| == |ids| && forall i :: 0 <= i < |steps| ==> steps[i] == OnPayout(ids[i], Cancel)
  {
    seq(|ids|, i requires 0 <= i < |ids| => OnPayout(ids[i], Cancel))
  }

  /** The expiry of a sweep is a run. */
  lemma {:induction false} CancelAllIsARun(sys: Sys, ids: seq<PayoutId>)
    requires InRange(ids, sys.db)
    ensures After(sys, CancelSteps(ids)).db == CancelAll(sys.db, ids)
  {
    if ids != [] {
      var n := |ids| - 1;
      CancelAllIsARun(sys, ids[..n]);
      assert CancelSteps(ids) == CancelSteps(ids[..n]) + [OnPayout(ids[n], Cancel)];
      RunLast(Next, sys, CancelSteps(ids[..n]), OnPayout(ids[n], Cancel));
    }
  }

  function RestSteps(db: Db, processing: seq<PayoutId>, states: PayoutId -> PayoutState, now: Time): seq<Step>
    requires InRange(processing, db)
  {
    RefreshAllSteps(db, processing, states) + CancelSteps(FirstBatch(StaleIds(RefreshAll(db, processing, states).payouts, now)))
  }

  function SweepSteps(db: Db, undispatched: seq<PayoutId>, processing: seq<PayoutId>,
      answers: PayoutId -> Answer, states: PayoutId -> PayoutState, now: Time): seq<Step>
    requires InRange(undispatched, db) && InRange(processing, db)
  {
    DispatchAllSteps(db, undispatched, answers) + RestSteps(DispatchAll(db, undispatched, answers), processing, states, now)
  }

  ghost predicate SweepConsistent(sys: Sys, undispatched: seq<PayoutId>, processing: seq<PayoutId>,
      answers: PayoutId -> Answer, states: PayoutId -> PayoutState)
  {
    && InRange(undispatched, sys.db) && InRange(processing, sys.db) && Distinct(undispatched) && Distinct(processing)
    && AnswersConsistent(sys, undispatched, answers)
    && var mid := After(sys, DispatchAllSteps(sys.db, undispatched, answers));
       InRange(processing, mid.db) && StatesConsistent(mid, processing, states)
  }

  /** A whole payout sweep, with replies the provider's records allow, is a run of the system's own
      steps, so every result about runs covers it; from a reachable state it ends in one. */
  lemma PayoutSweepIsARun(sys: Sys, undispatched: seq<PayoutId>, processing: seq<PayoutId>,
      answers: PayoutId -> Answer, states: PayoutId -> PayoutState, now: Time)
    requires Reachable(sys) && SweepConsistent(sys, undispatched, processing, answers, states)
    ensures var end := After(sys, SweepSteps(sys.db, undispatched, processing, answers, states, now));
      Reachable(end) && end.db == SweptAll(sys.db, undispatched, processing, answers, states, now)
  {
    var first := DispatchAllSteps(sys.db, undispatched, answers);
    var mid := After(sys, first);
    ReachableIsApart(sys);
    DispatchAllIsARun(sys, undispatched, answers);
    ReachableGoesOn(sys, first);
    ReachableIsApart(mid);
    RestOfSweepIsARun(mid, processing, states, now);
    SweepInTwo(sys, undispatched, processing, answers, states, now);
    ReachableGoesOn(sys, SweepSteps(sys.db, undispatched, processing, answers, states, now));
  }

  lemma ReachableIsApart(sys: Sys)
    requires Reachable(sys)
    ensures ReferencesApart(sys.db.payouts)
  {
    ReachableKeepsInv(sys);
  }

  lemma SweepInTwo(sys: Sys, undispatched: seq<PayoutId>, processing: seq<PayoutId>,
      answers: PayoutId -> Answer, states: PayoutId -> PayoutState, now: Time)
    requires InRange(undispatched, sys.db) && InRange(processing, sys.db)
    ensures After(sys, SweepSteps(sys.db, undispatched, processing, answers, states, now))
         == After(After(sys, DispatchAllSteps(sys.db, undispatched, answers)),
                  RestSteps(DispatchAll(sys.db, undispatched, answers), processing, states, now))
  {
    RunConcat(Next, sys, DispatchAllSteps(sys.db, undispatched, answers),
              RestSteps(DispatchAll(sys.db, undispatched, answers), processing, states, now));
  }

  lemma RestOfSweepIsARun(sys: Sys, processing: seq<PayoutId>, states: PayoutId -> PayoutState, now: Time)
    requires ReferencesApart(sys.db.payouts)
    requires Distinct(processing) && InRange(processing, sys.db) && StatesConsistent(sys, processing, states)
    ensures After(sys, RestSteps(sys.db, processing, states, now)).db == StaleCancelled(RefreshAll(sys.db, processing, states), now)
  {
    RefreshAllIsARun(sys, processing, states);
    var mid := After(sys, RefreshAllSteps(sys.db, processing, states));
    var stale := FirstBatch(StaleIds(mid.db.payouts, now));
    RunConcat(Next, sys, RefreshAllSteps(sys.db, processing, states), CancelSteps(stale));
    CancelAllIsARun(mid, stale);
  }

  // ------------------------------------------------------------------ whole requests

  function ApprovalSteps(db: Db, p: PayoutId, s: SpaceId, user: UserId, signatories: set<UserId>, otpOk: bool, now: Time, answer: Answer): seq<Step> {
    match SigningError(db, p, s, user, signatories, now)
    case Some(e) => if e == ApprovalExpired then [OnPayout(p, Cancel)] else []
    case None =>
      if !otpOk then []
      else match ApproveTx(db, p, user, signatories)
        case Err(_) => []
        case Ok(after) => [OnPayout(p, Approve(user, signatories))] + DispatchSteps(after, p, answer)
  }

  /** A whole approval, the dispatch it may trigger included, is a run. */
  lemma ApprovalIsARun(sys: Sys, p: PayoutId, s: SpaceId, user: UserId, signatories: set<UserId>, otpOk: bool, answer: Answer)
    requires p < |sys.db.payouts| ==> Consistent(answer, RemoteOf(sys, p))
    ensures After(sys, ApprovalSteps(sys.db, p, s, user, signatories, otpOk, sys.now, answer)).db
         == ApprovalEffect(sys.db, p, s, user, signatories, otpOk, sys.now, answer)
  {
    match SigningError(sys.db, p, s, user, signatories, sys.now)
    case Some(e) => if e == ApprovalExpired { RunOne(Next, sys, OnPayout(p, Cancel)); }
    case None =>
      if otpOk && ApproveTx(sys.db, p, user, signatories).Ok? { SignedIsARun(sys, p, user, signatories, answer); }
  }

  lemma SignedIsARun(sys: Sys, p: PayoutId, user: UserId, signatories: set<UserId>, answer: Answer)
    requires p < |sys.db.payouts| && Consistent(answer, RemoteOf(sys, p)) && ApproveTx(sys.db, p, user, signatories).Ok?
    ensures var after := ApproveTx(sys.db, p, user, signatories).value;
      && |after.payouts| == |sys.db.payouts|
      && After(sys, [OnPayout(p, Approve(user, signatories))] + DispatchSteps(after, p, answer)).db == DispatchEffect(after, p, answer)
  {
    var sign := OnPayout(p, Approve(user, signatories));
    var mid := Next(sys, sign);
    assert mid.db == ApproveTx(sys.db, p, user, signatories).value;
    MoveKeepsOthers(sys.db, p, sign.move);
    assert RemoteOf(mid, p) == RemoteOf(sys, p);
    RunFirst(Next, sys, sign, DispatchSteps(mid.db, p, answer));
    DispatchIsARun(mid, p, answer);
  }

  /** A request that creates a withdrawal, and the dispatch of one that needs no signatures. */
  lemma RequestIsARun(sys: Sys, req: Request, answer: Answer)
    requires Reachable(sys) && RequestTx(sys.db, req, sys.now).Ok?
    ensures var after, p := RequestTx(sys.db, req, sys.now).value, |sys.db.payouts|;
      && p < |after.payouts|
      && After(sys, [Withdraw(req)] + DispatchSteps(after, p, answer)).db == DispatchEffect(after, p, answer)
  {
    var p := |sys.db.payouts|;
    var mid := Next(sys, Withdraw(req));
    NewReferenceIsFresh(sys.db, req, sys.now);
    ReachableKeepsInv(sys);
    NewRowIsUnknown(sys, req);
    RunFirst(Next, sys, Withdraw(req), DispatchSteps(mid.db, p, answer));
    DispatchIsARun(mid, p, answer);
  }

  lemma NewRowIsUnknown(sys: Sys, req: Request)
    requires ProviderOk(sys) && RequestTx(sys.db, req, sys.now).Ok?
    ensures var mid := Next(sys, Withdraw(req)); |sys.db.payouts| < |mid.db.payouts| && RemoteOf(mid, |sys.db.payouts|) == Unknown
  {
    NewReferenceIsFresh(sys.db, req, sys.now);
    assert req.reference in sys.records ==> Referenced(sys.db.payouts, req.reference);
  }

  /** A rejection by a signatory, and a withdrawal by its requester, are runs. */
  lemma RejectionIsARun(sys: Sys, p: PayoutId, user: UserId)
    requires p < |sys.db.payouts|
    ensures After(sys, [OnPayout(p, NoteRejection(user)), OnPayout(p, Cancel)]).db == CancelTx(RejectionTx(sys.db, p, user), p)
    ensures After(sys, [OnPayout(p, Cancel)]).db == CancelTx(sys.db, p)
  {
    RunTwo(Next, sys, OnPayout(p, NoteRejection(user)), OnPayout(p, Cancel));
    RunOne(Next, sys, OnPayout(p, Cancel));
  }

  // ------------------------------------------------------- what a sweep puts right

  predicate Decided(remote: Remote) { remote.Declined? || (remote.Taken? && remote.state != Moving) }

  /** What reading the provider's record now would say. */
  function StateOf(remote: Remote): PayoutState {
    if StateIs(remote, PaidOut) then Succeeded else if StateIs(remote, Bounced) || StateIs(remote, Returned) then DidFail else StillMoving
  }

  /** A retry of one withdrawal and, if that leaves it processing, a refresh. */
  function Swept(db: Db, p: PayoutId, answer: Answer, state: PayoutState): (r: Db)
    requires p < |db.payouts|
    ensures |r.payouts| == |db.payouts|
  {
    Refreshed(DispatchEffect(db, p, answer), p, state)
  }

  /** The row says what the bank did: paid out, or restored. */
  predicate InStep(status: PayoutStatus, remote: Remote) {
    if StateIs(remote, PaidOut) then status == Success else PayoutRestored(status)
  }

  /** What a sweep does not put right: money returned after the row was closed as successful, or
      reported as such by the very reply that retries it; and a retry that is not answered. */
  predicate Missed(status: PayoutStatus, remote: Remote, answer: Answer) {
    || (StateIs(remote, Returned) && (status == Success || (status == Pending && answer == Accepted(Succeeded))))
    || (status == Pending && answer == NoReply)
  }

  /** Once the provider has decided, a sweep brings a withdrawal into step with the bank exactly
      unless the case is one it misses; and its entries come to minus the gross if the bank paid
      and to nothing otherwise, exactly unless it misses money the bank did not pay out. */
  lemma SweepSettles(sys: Sys, p: PayoutId, answer: Answer)
    requires Reachable(sys) && p < |sys.db.payouts| && Decided(RemoteOf(sys, p)) && Consistent(answer, RemoteOf(sys, p))
    ensures var after := Swept(sys.db, p, answer, StateOf(RemoteOf(sys, p)));
      && (InStep(after.payouts[p].status, RemoteOf(sys, p)) <==> !Missed(sys.db.payouts[p].status, RemoteOf(sys, p), answer))
      && (PayoutNet(after.ledger, p) == (if StateIs(RemoteOf(sys, p), PaidOut) then -sys.db.payouts[p].amount else 0)
          <==> StateIs(RemoteOf(sys, p), PaidOut) || !Missed(sys.db.payouts[p].status, RemoteOf(sys, p), answer))
  {
    ReachableAgrees(sys, p);
    ReachableKeepsInv(sys);
    SweptStatus(sys.db, p, RemoteOf(sys, p), Asked(sys, p), answer);
    SweptNets(sys.db, p, answer, StateOf(RemoteOf(sys, p)));
  }

  lemma SweptStatus(db: Db, p: PayoutId, remote: Remote, asked: bool, answer: Answer)
    requires p < |db.payouts| && Agrees(db.payouts[p], remote, asked) && Decided(remote) && Consistent(answer, remote)
    ensures InStep(Swept(db, p, answer, StateOf(remote)).payouts[p].status, remote) <==> !Missed(db.payouts[p].status, remote, answer)
    ensures StateIs(remote, PaidOut) ==> !PayoutRestored(Swept(db, p, answer, StateOf(remote)).payouts[p].status)
  {
    SweptIsByRow(db, p, answer, StateOf(remote));
    RowSwept(db.payouts[p], remote, asked, answer);
  }

  lemma RowSwept(row: Payout, remote: Remote, asked: bool, answer: Answer)
    requires Agrees(row, remote, asked) && Decided(remote) && Consistent(answer, remote)
    ensures var status := RowRefreshed(RowDispatched(row, answer), StateOf(remote)).status;
      && (InStep(status, remote) <==> !Missed(row.status, remote, answer))
      && (StateIs(remote, PaidOut) ==> !PayoutRestored(status))
  {
    match row.status
    case Pending =>
    case _ =>
  }

  lemma SweptNets(db: Db, p: PayoutId, answer: Answer, state: PayoutState)
    requires Sound(db) && p < |db.payouts|
    ensures var after := Swept(db, p, answer, state);
      && 0 < db.payouts[p].amount
      && PayoutNet(after.ledger, p) == if PayoutRestored(after.payouts[p].status) then 0 else -db.payouts[p].amount
  {
    var mid := DispatchEffect(db, p, answer);
    DispatchKeepsSound(db, p, answer, mid);
    DispatchKeepsTerms(db, p, answer, p);
    RefreshKeepsSound(mid, p, state, Refreshed(mid, p, state));
    RefreshKeepsTerms(mid, p, state, p);
    PayoutNetsToGrossOrNothing(Refreshed(mid, p, state), p);
    assert PayoutOk(db.dues, db.payouts[p]);
  }

  // ------------------------------------------------------------- row by row

  function RowTo(row: Payout, to: PayoutStatus): Payout {
    if CanTransitionPayout(row.status, to) then WithStatus(row, to) else row
  }

  function RowReported(row: Payout, state: PayoutState): Payout {
    match state case StillMoving => row case Succeeded => RowTo(row, Success) case DidFail => RowTo(row, FailureStatus(row.status))
  }

  /** What a retry makes of a row, whatever else the tables hold. */
  function RowDispatched(row: Payout, answer: Answer): Payout {
    if row.status != Pending then row
    else if row.destinationId.None? || answer == Refused then RowTo(row, Failed)
    else match answer case Accepted(state) => RowReported(RowTo(row, Processing), state) case _ => row
  }

  /** What a refresh makes of it. */
  function RowRefreshed(row: Payout, state: PayoutState): Payout { if row.status == Processing then RowReported(row, state) else row }

  lemma ReportIsByRow(db: Db, p: PayoutId, state: PayoutState)
    requires p < |db.payouts|
    ensures p < |ReportTx(db, p, state).payouts| && ReportTx(db, p, state).payouts[p] == RowReported(db.payouts[p], state)
  {
  }

  lemma DispatchIsByRow(db: Db, p: PayoutId, answer: Answer)
    requires p < |db.payouts|
    ensures DispatchEffect(db, p, answer).payouts[p] == RowDispatched(db.payouts[p], answer)
  {
    if answer.Accepted? { ReportIsByRow(MarkProcessingTx(db, p), p, answer.state); }
    ReportIsByRow(db, p, DidFail);
  }

  lemma RefreshIsByRow(db: Db, p: PayoutId, state: PayoutState)
    requires p < |db.payouts|
    ensures Refreshed(db, p, state).payouts[p] == RowRefreshed(db.payouts[p], state)
  {
    ReportIsByRow(db, p, state);
  }

  lemma {:induction false} DispatchAllAt(db: Db, ids: seq<PayoutId>, answers: PayoutId -> Answer, p: PayoutId)
    requires InRange(ids, db) && Distinct(ids) && p < |db.payouts|
    ensures DispatchAll(db, ids, answers).payouts[p] == if p in ids then RowDispatched(db.payouts[p], answers(p)) else db.payouts[p]
  {
    if ids != [] {
      var n := |ids| - 1;
      var mid := DispatchAll(db, ids[..n], answers);
      assert ids == ids[..n] + [ids[n]] && ids[n] !in ids[..n];
      DispatchAllAt(db, ids[..n], answers, p);
      DispatchKeepsTerms(mid, ids[n], answers(ids[n]), p);
      DispatchIsByRow(mid, ids[n], answers(ids[n]));
    }
  }

  lemma {:induction false} RefreshAllAt(db: Db, ids: seq<PayoutId>, states: PayoutId -> PayoutState, p: PayoutId)
    requires InRange(ids, db) && Distinct(ids) && p < |db.payouts|
    ensures RefreshAll(db, ids, states).payouts[p] == if p in ids then RowRefreshed(db.payouts[p], states(p)) else db.payouts[p]
  {
    if ids != [] {
      var n := |ids| - 1;
      var mid := RefreshAll(db, ids[..n], states);
      assert ids == ids[..n] + [ids[n]] && ids[n] !in ids[..n];
      RefreshAllAt(db, ids[..n], states, p);
      RefreshKeepsTerms(mid, ids[n], states(ids[n]), p);
      RefreshIsByRow(mid, ids[n], states(ids[n]));
    }
  }

  lemma {:induction false} CancelsSpareClosed(db: Db, ids: seq<PayoutId>, p: PayoutId)
    requires InRange(ids, db) && p < |db.payouts| && db.payouts[p].status != AwaitingApproval
    ensures CancelAll(db, ids).payouts[p] == db.payouts[p]
  {
    if ids != [] { CancelsSpareClosed(db, ids[..|ids| - 1], p); }
  }

  /** A whole sweep treats each withdrawal past its wait by itself: a retry if it is in the first
      batch, then a refresh if it is in the second. */
  lemma SweepIsRowByRow(db: Db, undispatched: seq<PayoutId>, processing: seq<PayoutId>,
      answers: PayoutId -> Answer, states: PayoutId -> PayoutState, now: Time, p: PayoutId)
    requires InRange(undispatched, db) && InRange(processing, db) && Distinct(undispatched) && Distinct(processing)
    requires p < |db.payouts| && db.payouts[p].status != AwaitingApproval
    ensures |SweptAll(db, undispatched, processing, answers, states, now).payouts| == |db.payouts|
    ensures var mid := if p in undispatched then RowDispatched(db.payouts[p], answers(p)) else db.payouts[p];
      SweptAll(db, undispatched, processing, answers, states, now).payouts[p]
      == if p in processing then RowRefreshed(mid, states(p)) else mid
  {
    var dispatched := DispatchAll(db, undispatched, answers);
    var refreshed := RefreshAll(dispatched, processing, states);
    DispatchAllAt(db, undispatched, answers, p);
    RefreshAllAt(dispatched, processing, states, p);
    CancelsSpareClosed(refreshed, FirstBatch(StaleIds(refreshed.payouts, now)), p);
  }

  /** Retries and refreshes neither end nor start a wait. */
  lemma WaitsAreSpared(db: Db, undispatched: seq<PayoutId>, processing: seq<PayoutId>,
      answers: PayoutId -> Answer, states: PayoutId -> PayoutState, p: PayoutId)
    requires InRange(undispatched, db) && InRange(processing, db) && Distinct(undispatched) && Distinct(processing) && p < |db.payouts|
    ensures var row := RefreshAll(DispatchAll(db, undispatched, answers), processing, states).payouts[p];
      && (row.status == AwaitingApproval <==> db.payouts[p].status == AwaitingApproval)
      && (row.status == AwaitingApproval ==> row == db.payouts[p])
  {
    DispatchAllAt(db, undispatched, answers, p);
    RefreshAllAt(DispatchAll(db, undispatched, answers), processing, states, p);
  }

  /** Of the withdrawals that wait, a whole sweep cancels overdue ones only, all of them if there are at
      most fifty and fifty otherwise, and leaves the others waiting. */
  lemma SweepCancelsTheOverdue(db: Db, undispatched: seq<PayoutId>, processing: seq<PayoutId>,
      answers: PayoutId -> Answer, states: PayoutId -> PayoutState, now: Time) returns (cancelled: set<PayoutId>)
    requires InRange(undispatched, db) && InRange(processing, db) && Distinct(undispatched) && Distinct(processing)
    ensures cancelled <= Overdue(db.payouts, now)
    ensures |cancelled| == if |Overdue(db.payouts, now)| <= 50 then |Overdue(db.payouts, now)| else 50
    ensures |SweptAll(db, undispatched, processing, answers, states, now).payouts| == |db.payouts|
    ensures forall p: PayoutId :: p < |db.payouts| && db.payouts[p].status == AwaitingApproval ==>
      SweptAll(db, undispatched, processing, answers, states, now).payouts[p].status == if p in cancelled then Cancelled else AwaitingApproval
  {
    var mid := RefreshAll(DispatchAll(db, undispatched, answers), processing, states);
    forall p: PayoutId | p < |db.payouts|
      ensures mid.payouts[p].status == AwaitingApproval <==> db.payouts[p].status == AwaitingApproval
      ensures mid.payouts[p].status == AwaitingApproval ==> mid.payouts[p] == db.payouts[p]
    {
      WaitsAreSpared(db, undispatched, processing, answers, states, p);
    }
    assert Overdue(mid.payouts, now) == Overdue(db.payouts, now);
    ExpiryCancelsTheOverdue(mid, now);
    cancelled := set p: PayoutId | p in FirstBatch(StaleIds(mid.payouts, now));
  }

  /** And what SweepSettles says of one retry and one refresh is about that row. */
  lemma SweptIsByRow(db: Db, p: PayoutId, answer: Answer, state: PayoutState)
    requires p < |db.payouts|
    ensures Swept(db, p, answer, state).payouts[p] == RowRefreshed(RowDispatched(db.payouts[p], answer), state)
  {
    DispatchIsByRow(db, p, answer);
    RefreshIsByRow(DispatchEffect(db, p, answer), p, state);
  }

  /** No sweep asks about a withdrawal that is closed as successful, whatever the bank has done
      with the money since. */
  lemma SweepIgnoresSuccess(db: Db, undispatched: seq<PayoutId>, processing: seq<PayoutId>,
      answers: PayoutId -> Answer, states: PayoutId -> PayoutState, now: Time, p: PayoutId)
    requires InRange(undispatched, db) && InRange(processing, db) && Distinct(undispatched) && Distinct(processing)
    requires p < |db.payouts| && db.payouts[p].status == Success
    ensures |SweptAll(db, undispatched, processing, answers, states, now).payouts| == |db.payouts|
    ensures SweptAll(db, undispatched, processing, answers, states, now).payouts[p] == db.payouts[p]
  {
    SweepIsRowByRow(db, undispatched, processing, answers, states, now, p);
  }
}
