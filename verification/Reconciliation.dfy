/** The periodic sweep that asks the provider about anything gone quiet (src/jobs/reconciliation.ts).
    It reaches the tables only through the services' own outcomes. */
module Reconciliation {
  import opened Wrappers
  import opened StateMachine
  import opened Tables
  import opened Books
  import opened Withdrawal
  import opened Approval
  import opened PayoutFacts
  import opened Checkouts
  import opened CheckoutFacts
  import opened CheckoutOutcomes
  import opened Protocol
  import opened Events

  const EXPIRY_GRACE_MS: nat := 300_000
  const NOBODY := Lookup(None, None)

  /** The provider's record of a collection account; `Lapsed` is expired or failed. */
  datatype Collection = StillOpen | Collected(receivedKobo: Option<int>) | TooLittle(receivedKobo: Option<int>) | Lapsed

  /** What was read of a checkout before asking: the row as it then was, whether its account had
      been opened, and whether this caller may expire it. */
  datatype Sighting = Sighting(row: Checkout, hasAccount: bool, mayExpire: bool)

  predicate PastExpiry(seen: Sighting, now: Time) { seen.row.expiresAt + EXPIRY_GRACE_MS < now }

  /** What a sweep reports, if anything. */
  function SweepEvent(seen: Sighting, answer: Collection, now: Time): Option<Event> {
    if seen.row.status != CheckoutPending then None
    else if !seen.hasAccount then if seen.mayExpire && PastExpiry(seen, now) then Some(PaymentExpired(NOBODY)) else None
    else match answer
      case Collected(received) => if received.None? then None else Some(PaymentSucceeded(NOBODY, received.value, 0, None))
      case TooLittle(received) => Some(PaymentUnderpaid(NOBODY, if received.Some? then received.value else 0))
      case Lapsed => Some(PaymentExpired(NOBODY))
      case StillOpen => if seen.mayExpire && PastExpiry(seen, now) then Some(PaymentExpired(NOBODY)) else None
  }

  function SweepEffect(db: Db, c: CheckoutId, seen: Sighting, answer: Collection, now: Time): Db
    requires c < |db.checkouts|
  {
    match SweepEvent(seen, answer, now) case None => db case Some(e) => OnFoundCheckout(db, e, c, now)
  }

  method ReconcileCheckout(db: Database, c: CheckoutId, seen: Sighting, answer: Collection, now: Time)
    requires c < |db.checkouts| && CanSettle(db.dues, db.checkouts[c])
    modifies db
    ensures db.Snapshot() == SweepEffect(old(db.Snapshot()), c, seen, answer, now)
  {
    if seen.row.status != CheckoutPending { return; }
    var pastExpiry := seen.row.expiresAt + EXPIRY_GRACE_MS < now;
    if !seen.hasAccount {
      if seen.mayExpire && pastExpiry { var _ := ExpireCheckout(db, c, now); }
      return;
    }
    match answer {
      case Collected(received) =>
        if received.None? { return; }
        ApplySuccess(db, c, received.value, 0, None, now);
      case TooLittle(received) =>
        var _ := MarkUnderpaid(db, c, if received.Some? then received.value else 0, now);
      case Lapsed =>
        var _ := ExpireCheckout(db, c, now);
      case StillOpen =>
        if seen.mayExpire && pastExpiry { var _ := ExpireCheckout(db, c, now); }
    }
  }

  /** A sweep pays a checkout exactly when the provider names an amount that covers it. */
  lemma SweepNeverGuesses(db: Db, c: CheckoutId, seen: Sighting, answer: Collection, now: Time)
    requires c < |db.checkouts| && db.checkouts[c].status != Paid
    ensures c < |SweepEffect(db, c, seen, answer, now).checkouts|
    ensures SweepEffect(db, c, seen, answer, now).checkouts[c].status == Paid
       <==> seen.row.status == CheckoutPending && seen.hasAccount && answer.Collected? && answer.receivedKobo.Some?
            && answer.receivedKobo.value >= db.checkouts[c].totalKobo
  {
  }

  /** A sweep closes a pending checkout unpaid exactly when the provider says it lapsed, or the
      checkout is five minutes past its expiry and the caller may expire it. */
  lemma SweepExpiresOnlyTheLapsed(db: Db, c: CheckoutId, seen: Sighting, answer: Collection, now: Time)
    requires c < |db.checkouts| && db.checkouts[c].status == CheckoutPending && seen.row.status == CheckoutPending
    ensures c < |SweepEffect(db, c, seen, answer, now).checkouts|
    ensures SweepEffect(db, c, seen, answer, now).checkouts[c].status == Expired
       <==> (seen.hasAccount && answer == Lapsed)
            || ((!seen.hasAccount || answer == StillOpen) && seen.mayExpire && seen.row.expiresAt + 300_000 < now)
  {
  }

  /** What a sweep writes, by what it saw and what the provider says: the amount the provider names is
      paid in or, if too little, noted; a lapsed account, or five minutes past its expiry for a caller that
      may expire it, closes the checkout; anything else writes nothing. */
  lemma SweepWrites(db: Db, c: CheckoutId, seen: Sighting, answer: Collection, now: Time)
    requires Sound(db) && CheckoutsOk(db) && c < |db.checkouts|
    ensures var after, late := SweepEffect(db, c, seen, answer, now), seen.mayExpire && seen.row.expiresAt + 300_000 < now;
      if seen.row.status != CheckoutPending then after == db
      else if !seen.hasAccount then after == if late then ClosedUnpaid(db, c, now) else db
      else match answer
        case Collected(None) => after == db
        case Collected(Some(received)) =>
          if db.checkouts[c].status == Paid then after == db
          else if received < db.checkouts[c].totalKobo then after == ShortNoted(db, c, received, now)
          else PaidBy(db, after, c, received, 0, now)
        case TooLittle(received) => after == ShortNoted(db, c, if received.Some? then received.value else 0, now)
        case Lapsed => after == ClosedUnpaid(db, c, now)
        case StillOpen => after == if late then ClosedUnpaid(db, c, now) else db
  {
    ExpiryWrites(db, c, now);
    match answer
    case Collected(received) => if received.Some? { SuccessWrites(db, c, received.value, 0, None, now); }
    case TooLittle(received) => ShortPaymentWrites(db, c, if received.Some? then received.value else 0, now);
    case _ =>
  }

  /** Money the provider reports as too little is never dropped: it closes a pending checkout as underpaid,
      on record and in front of an admin. */
  lemma TooLittleIsOnRecord(db: Db, c: CheckoutId, seen: Sighting, received: Option<int>, now: Time)
    requires c < |db.checkouts| && db.checkouts[c].status == CheckoutPending
    requires seen.row.status == CheckoutPending && seen.hasAccount
    ensures var after, amount := SweepEffect(db, c, seen, TooLittle(received), now), if received.Some? then received.value else 0;
      after == db.(checkouts := db.checkouts[c := db.checkouts[c].(
        status := Underpaid, underpaidAt := Some(now), receivedKobo := Some(amount), needsReview := true)])
  {
    ShortPaymentWrites(db, c, if received.Some? then received.value else 0, now);
  }

  /** The row says this amount already, and nothing more can come of it. */
  predicate AlreadyNoted(co: Checkout, amount: int) {
    || co.status == Paid
    || (co.status == Underpaid && co.receivedKobo == Some(amount))
    || (co.status == Expired && co.receivedKobo == Some(amount) && co.needsReview)
  }

  /** A sweep leaves the tables as they were exactly in the silent cases: nothing was pending when it
      looked; there is no account, or it is open, and it is too early or not the caller's to expire; the
      provider names no amount; or what it reports is noted or the checkout closed already. */
  lemma SilentExactly(db: Db, c: CheckoutId, seen: Sighting, answer: Collection, now: Time)
    requires Sound(db) && CheckoutsOk(db) && c < |db.checkouts|
    ensures var co, late := db.checkouts[c], seen.mayExpire && seen.row.expiresAt + 300_000 < now;
      SweepEffect(db, c, seen, answer, now) == db <==>
        || seen.row.status != CheckoutPending
        || (!seen.hasAccount && (!late || co.status != CheckoutPending))
        || (seen.hasAccount && match answer
            case Collected(received) => received.None? || co.status == Paid || (received.value < co.totalKobo && AlreadyNoted(co, received.value))
            case TooLittle(received) => AlreadyNoted(co, if received.Some? then received.value else 0)
            case Lapsed => co.status != CheckoutPending
            case StillOpen => !late || co.status != CheckoutPending)
  {
    SweepWrites(db, c, seen, answer, now);
    ClosingShows(db, c, now);
    if answer.Collected? && answer.receivedKobo.Some? { NotingShows(db, c, answer.receivedKobo.value, now); }
    if answer.TooLittle? { NotingShows(db, c, if answer.receivedKobo.Some? then answer.receivedKobo.value else 0, now); }
  }

  lemma NotingShows(db: Db, c: CheckoutId, received: int, now: Time)
    requires c < |db.checkouts|
    ensures ShortNoted(db, c, received, now) == db <==> AlreadyNoted(db.checkouts[c], received)
  {
    var noted := db.checkouts[c].(receivedKobo := Some(received), needsReview := true);
    if ShortNoted(db, c, received, now) == db { assert ShortNoted(db, c, received, now).checkouts[c] == db.checkouts[c]; }
    if noted == db.checkouts[c] { assert db.checkouts[c := noted] == db.checkouts; }
  }

  lemma ClosingShows(db: Db, c: CheckoutId, now: Time)
    requires c < |db.checkouts|
    ensures ClosedUnpaid(db, c, now) == db <==> db.checkouts[c].status != CheckoutPending
  {
    if ClosedUnpaid(db, c, now) == db { assert ClosedUnpaid(db, c, now).checkouts[c] == db.checkouts[c]; }
  }

  /** A sweep is a run of the system's own steps too. */
  lemma SweepIsARun(sys: Sys, c: CheckoutId, seen: Sighting, answer: Collection)
    requires c < |sys.db.checkouts|
    ensures var e := SweepEvent(seen, answer, sys.now);
      After(sys, if e.None? then [] else StepsOf(sys.db, e.value, c)) == sys.(db := SweepEffect(sys.db, c, seen, answer, sys.now))
  {
    var e := SweepEvent(seen, answer, sys.now);
    if e.Some? { EventIsARun(sys, e.value, c); }
  }

  // -------------------------------------------------------------------- payouts

  predicate InRange(ids: seq<PayoutId>, db: Db) { forall i :: 0 <= i < |ids| ==> ids[i] < |db.payouts| }

  function DispatchAll(db: Db, ids: seq<PayoutId>, answers: PayoutId -> Answer): (r: Db)
    requires InRange(ids, db)
    ensures |r.payouts| == |db.payouts|
  {
    if ids == [] then db
    else
      var n := |ids| - 1;
      DispatchEffect(DispatchAll(db, ids[..n], answers), ids[n], answers(ids[n]))
  }

  function Refreshed(db: Db, p: PayoutId, state: PayoutState): (r: Db)
    requires p < |db.payouts|
    ensures |r.payouts| == |db.payouts|
  {
    if db.payouts[p].status == Processing then ReportTx(db, p, state) else db
  }

  /** What a refresh writes, by the provider's record. */
  lemma RefreshWrites(db: Db, p: PayoutId, state: PayoutState)
    requires Sound(db) && p < |db.payouts|
    ensures var row := db.payouts[p];
      Refreshed(db, p, state) ==
        if row.status != Processing || state == StillMoving then db
        else if state == Succeeded then db.(payouts := db.payouts[p := row.(status := Success, activeSpaceId := None)])
        else GivenBackAs(db, p, row.(status := Failed, activeSpaceId := None))
  {
    OutcomesWrite(db, p);
  }

  function RefreshAll(db: Db, ids: seq<PayoutId>, states: PayoutId -> PayoutState): (r: Db)
    requires InRange(ids, db)
    ensures |r.payouts| == |db.payouts|
  {
    if ids == [] then db
    else
      var n := |ids| - 1;
      Refreshed(RefreshAll(db, ids[..n], states), ids[n], states(ids[n]))
  }

  /** What the schema and the writes guarantee of stored rows. */
  ghost predicate AllRestorable(payouts: seq<Payout>) {
    ReferencesApart(payouts) && forall p: PayoutId :: p < |payouts| ==> Restorable(payouts[p])
  }

  lemma ReportKeepsTerms(db: Db, p: PayoutId, state: PayoutState, q: PayoutId)
    requires p < |db.payouts| && q < |db.payouts|
    ensures var after := ReportTx(db, p, state).payouts;
      |after| == |db.payouts| && SameTerms(db.payouts[q], after[q]) && (q != p ==> after[q] == db.payouts[q])
  {
  }

  lemma DispatchKeepsTerms(db: Db, p: PayoutId, answer: Answer, q: PayoutId)
    requires p < |db.payouts| && q < |db.payouts|
    ensures var after := DispatchEffect(db, p, answer).payouts;
      |after| == |db.payouts| && SameTerms(db.payouts[q], after[q]) && (q != p ==> after[q] == db.payouts[q])
  {
    ReportKeepsTerms(db, p, DidFail, q);
    if answer.Accepted? { ReportKeepsTerms(MarkProcessingTx(db, p), p, answer.state, q); }
  }

  lemma RefreshKeepsTerms(db: Db, p: PayoutId, state: PayoutState, q: PayoutId)
    requires p < |db.payouts| && q < |db.payouts|
    ensures var after := Refreshed(db, p, state).payouts;
      |after| == |db.payouts| && SameTerms(db.payouts[q], after[q]) && (q != p ==> after[q] == db.payouts[q])
  {
    ReportKeepsTerms(db, p, state, q);
  }

  lemma SameTermsRestorable(payouts: seq<Payout>, payouts': seq<Payout>)
    requires AllRestorable(payouts) && |payouts'| == |payouts|
    requires forall q: PayoutId :: q < |payouts| ==> SameTerms(payouts[q], payouts'[q])
    ensures AllRestorable(payouts')
  {
    forall i, j | 0 <= i < j < |payouts'| ensures payouts'[i].reference != payouts'[j].reference {
      assert SameTerms(payouts[i], payouts'[i]) && SameTerms(payouts[j], payouts'[j]);
    }
  }

  lemma DispatchKeepsRestorable(db: Db, p: PayoutId, answer: Answer)
    requires p < |db.payouts| && AllRestorable(db.payouts)
    ensures AllRestorable(DispatchEffect(db, p, answer).payouts)
  {
    forall q: PayoutId | q < |db.payouts| ensures SameTerms(db.payouts[q], DispatchEffect(db, p, answer).payouts[q]) {
      DispatchKeepsTerms(db, p, answer, q);
    }
    SameTermsRestorable(db.payouts, DispatchEffect(db, p, answer).payouts);
  }

  lemma RefreshKeepsRestorable(db: Db, p: PayoutId, state: PayoutState)
    requires p < |db.payouts| && AllRestorable(db.payouts)
    ensures AllRestorable(Refreshed(db, p, state).payouts)
  {
    forall q: PayoutId | q < |db.payouts| ensures SameTerms(db.payouts[q], Refreshed(db, p, state).payouts[q]) {
      RefreshKeepsTerms(db, p, state, q);
    }
    SameTermsRestorable(db.payouts, Refreshed(db, p, state).payouts);
  }

  method RetryDispatches(db: Database, ids: seq<PayoutId>, answers: PayoutId -> Answer)
    requires AllRestorable(db.payouts) && InRange(ids, db.Snapshot())
    modifies db
    ensures db.Snapshot() == DispatchAll(old(db.Snapshot()), ids, answers) && AllRestorable(db.payouts)
  {
    ghost var was := db.Snapshot();
    for k := 0 to |ids|
      invariant AllRestorable(db.payouts)
      invariant db.Snapshot() == DispatchAll(was, ids[..k], answers)
    {
      assert ids[..k + 1][..k] == ids[..k];
      DispatchKeepsRestorable(db.Snapshot(), ids[k], answers(ids[k]));
      DispatchPayout(db, ids[k], answers(ids[k]));
    }
    assert ids[..|ids|] == ids;
  }

  method RefreshProcessing(db: Database, ids: seq<PayoutId>, states: PayoutId -> PayoutState)
    requires AllRestorable(db.payouts) && InRange(ids, db.Snapshot())
    modifies db
    ensures db.Snapshot() == RefreshAll(old(db.Snapshot()), ids, states) && AllRestorable(db.payouts)
  {
    ghost var was := db.Snapshot();
    for k := 0 to |ids|
      invariant AllRestorable(db.payouts)
      invariant db.Snapshot() == RefreshAll(was, ids[..k], states)
    {
      assert ids[..k + 1][..k] == ids[..k];
      RefreshKeepsRestorable(db.Snapshot(), ids[k], states(ids[k]));
      RefreshPayout(db, ids[k], states(ids[k]));
    }
    assert ids[..|ids|] == ids;
  }

  /** The stale approvals of one sweep, cancelled. */
  function StaleCancelled(db: Db, now: Time): Db { CancelAll(db, FirstBatch(StaleIds(db.payouts, now))) }

  /** What a payout sweep leaves behind. */
  function SweptAll(db: Db, undispatched: seq<PayoutId>, processing: seq<PayoutId>,
      answers: PayoutId -> Answer, states: PayoutId -> PayoutState, now: Time): Db
    requires InRange(undispatched, db) && InRange(processing, db)
  {
    StaleCancelled(RefreshAll(DispatchAll(db, undispatched, answers), processing, states), now)
  }

  /** Resends what the provider never acknowledged, asks about what it has, and cancels what
      nobody approved in time. The two batches are those the sweep's queries returned. */
  method ReconcilePayouts(db: Database, undispatched: seq<PayoutId>, processing: seq<PayoutId>,
      answers: PayoutId -> Answer, states: PayoutId -> PayoutState, now: Time)
    requires AllRestorable(db.payouts) && InRange(undispatched, db.Snapshot()) && InRange(processing, db.Snapshot())
    modifies db
    ensures db.Snapshot() == SweptAll(old(db.Snapshot()), undispatched, processing, answers, states, now)
  {
    RetryDispatches(db, undispatched, answers);
    RefreshProcessing(db, processing, states);
    ExpireStaleApprovals(db, now);
  }

  lemma RefreshKeepsSound(db: Db, p: PayoutId, state: PayoutState, after: Db)
    requires Sound(db) && p < |db.payouts| && after == Refreshed(db, p, state)
    ensures Sound(after)
  {
    if db.payouts[p].status == Processing { ReportKeepsSound(db, p, state, after); }
  }

  lemma AcceptedKeepsSound(db: Db, p: PayoutId, state: PayoutState)
    requires Sound(db) && p < |db.payouts|
    ensures Sound(ReportTx(MarkProcessingTx(db, p), p, state))
  {
    AcceptanceKeepsSound(db, p, MarkProcessingTx(db, p));
    ReportKeepsSound(MarkProcessingTx(db, p), p, state, ReportTx(MarkProcessingTx(db, p), p, state));
  }

  lemma DispatchKeepsSound(db: Db, p: PayoutId, answer: Answer, after: Db)
    requires Sound(db) && p < |db.payouts| && after == DispatchEffect(db, p, answer)
    ensures Sound(after)
  {
    if db.payouts[p].status == Pending {
      if db.payouts[p].destinationId.None? || answer == Refused {
        FailKeepsSound(db, p, after);
      } else if answer.Accepted? {
        AcceptedKeepsSound(db, p, answer.state);
      }
    }
  }

  lemma {:induction false} DispatchAllKeepsSound(db: Db, ids: seq<PayoutId>, answers: PayoutId -> Answer)
    requires Sound(db) && InRange(ids, db)
    ensures Sound(DispatchAll(db, ids, answers))
  {
    if ids != [] {
      var n := |ids| - 1;
      var mid := DispatchAll(db, ids[..n], answers);
      var after := DispatchEffect(mid, ids[n], answers(ids[n]));
      assert DispatchAll(db, ids, answers) == after;
      DispatchAllKeepsSound(db, ids[..n], answers);
      DispatchKeepsSound(mid, ids[n], answers(ids[n]), after);
    }
  }

  lemma {:induction false} RefreshAllKeepsSound(db: Db, ids: seq<PayoutId>, states: PayoutId -> PayoutState)
    requires Sound(db) && InRange(ids, db)
    ensures Sound(RefreshAll(db, ids, states))
  {
    if ids != [] {
      var n := |ids| - 1;
      var mid := RefreshAll(db, ids[..n], states);
      var after := Refreshed(mid, ids[n], states(ids[n]));
      assert RefreshAll(db, ids, states) == after;
      RefreshAllKeepsSound(db, ids[..n], states);
      RefreshKeepsSound(mid, ids[n], states(ids[n]), after);
    }
  }

  /** A whole payout sweep, whatever the provider answers, leaves the books sound. */
  lemma PayoutSweepKeepsSound(db: Db, undispatched: seq<PayoutId>, processing: seq<PayoutId>,
      answers: PayoutId -> Answer, states: PayoutId -> PayoutState, now: Time)
    requires Sound(db) && InRange(undispatched, db) && InRange(processing, db)
    ensures Sound(SweptAll(db, undispatched, processing, answers, states, now))
  {
    DispatchAllKeepsSound(db, undispatched, answers);
    RestOfSweepKeepsSound(DispatchAll(db, undispatched, answers), processing, states, now);
  }

  lemma RestOfSweepKeepsSound(db: Db, processing: seq<PayoutId>, states: PayoutId -> PayoutState, now: Time)
    requires Sound(db) && InRange(processing, db)
    ensures Sound(StaleCancelled(RefreshAll(db, processing, states), now))
  {
    RefreshAllKeepsSound(db, processing, states);
    ExpiryKeepsSound(RefreshAll(db, processing, states), now);
  }

  lemma ExpiryKeepsSound(db: Db, now: Time)
    requires Sound(db)
    ensures Sound(StaleCancelled(db, now))
  {
    var stale := FirstBatch(StaleIds(db.payouts, now));
    assert InRange(stale, db);
    SweepKeepsSound(db, stale);
  }

  /** Calls were made where there was somewhere to send, and every reply was lost. */
  predicate Unanswered(db: Db, ids: seq<PayoutId>, answers: PayoutId -> Answer)
    requires InRange(ids, db)
  {
    forall i :: 0 <= i < |ids| ==> answers(ids[i]) == NoReply && !NowhereToSend(db.payouts[ids[i]])
  }

  predicate NowhereToSend(row: Payout) { row.status == Pending && row.destinationId.None? }

  lemma {:induction false} UnansweredRetries(db: Db, ids: seq<PayoutId>, answers: PayoutId -> Answer)
    requires InRange(ids, db) && Unanswered(db, ids, answers)
    ensures DispatchAll(db, ids, answers) == db
  {
    if ids != [] { UnansweredRetries(db, ids[..|ids| - 1], answers); }
  }

  lemma {:induction false} UninformedRefreshes(db: Db, ids: seq<PayoutId>, states: PayoutId -> PayoutState)
    requires InRange(ids, db) && forall i :: 0 <= i < |ids| ==> states(ids[i]) == StillMoving
    ensures RefreshAll(db, ids, states) == db
  {
    if ids != [] { UninformedRefreshes(db, ids[..|ids| - 1], states); }
  }

  /** A payout sweep that learns nothing from the provider gives back only what its expiry of stale
      approvals does, and with none stale changes no table at all. */
  lemma SilenceRestoresNothing(db: Db, undispatched: seq<PayoutId>, processing: seq<PayoutId>,
      answers: PayoutId -> Answer, states: PayoutId -> PayoutState, now: Time)
    requires InRange(undispatched, db) && InRange(processing, db) && Unanswered(db, undispatched, answers)
    requires forall i :: 0 <= i < |processing| ==> states(processing[i]) == StillMoving
    ensures SweptAll(db, undispatched, processing, answers, states, now) == StaleCancelled(db, now)
    ensures StaleIds(db.payouts, now) == [] ==> SweptAll(db, undispatched, processing, answers, states, now) == db
  {
    UnansweredRetries(db, undispatched, answers);
    UninformedRefreshes(db, processing, states);
  }
}
