/** Runs from the empty system that show where a guarantee stops. */
module Witnesses {
  import opened Wrappers
  import opened Money
  import opened Sums
  import opened StateMachine
  import opened Tables
  import opened Runs
  import opened Ledger
  import opened Books
  import opened Withdrawal
  import opened Checkouts
  import opened Settlement
  import opened OpenCheckouts
  import opened Events
  import opened Reconciliation
  import opened Protocol
  import opened PayoutRuns
  import opened PayoutSweeps

  const STUDENT: UserId := 7

  const DUE := Due(0, 200_000, None, 0)

  lemma StartIsReachable()
    ensures Reachable(START)
  {
    assert START == After(START, []);
  }

  // ------------------------------------------------------------------- baskets

  const ELIGIBLE := Eligibility(true, false, true, false, false, true, false, true)

  function Basket(r: Reference, now: Time): CheckoutRequest { CheckoutRequest(STUDENT, [0], ELIGIBLE, r, now, 10) }

  /** What a new basket for the one due comes to. */
  predicate FreshBasket(co: Checkout, r: Reference, now: Time) {
    && co.reference == r && co.userId == STUDENT && co.status == CheckoutPending && co.totalKobo == 206_000
    && co.providerChargeId.None? && !co.needsReview && co.expiresAt == now + 10
    && |co.items| == 1 && co.items[0].dueId == 0
  }

  lemma OneDueBasket(db: Db, r: Reference, now: Time)
    requires db.dues == [DUE] && FreshReference(db, r)
    requires forall c: CheckoutId :: c < |db.checkouts| ==> !IsOpen(db.checkouts[c], now)
    ensures CreateTx(db, Basket(r, now)).Ok?
    ensures var after := CreateTx(db, Basket(r, now)).value.db;
      && after == db.(checkouts := after.checkouts, txns := after.txns)
      && |after.checkouts| == |db.checkouts| + 1 && after.checkouts[..|db.checkouts|] == db.checkouts
      && FreshBasket(after.checkouts[|db.checkouts|], r, now)
      && after.txns == db.txns[r := TxnPending]
  {
    OneDueSelected(db, r, now);
    WayClear(db, r, now);
    OneDueOpened(db, r, now);
  }

  lemma WayClear(db: Db, r: Reference, now: Time)
    requires db.dues == [DUE] && FreshReference(db, r)
    requires forall c: CheckoutId :: c < |db.checkouts| ==> !IsOpen(db.checkouts[c], now)
    ensures LookForOpen(db, Basket(r, now), [0]) == Ok(None)
  {
    NoneOpen(db.checkouts, now);
    OneDuePriced(db);
  }

  lemma OneDueOpened(db: Db, r: Reference, now: Time)
    requires db.dues == [DUE]
    ensures CheckoutFee(Sum(Amounts(db.dues, [0]))).Ok?
    ensures var after := Opened(db, Basket(r, now), [0]);
      && after == db.(checkouts := after.checkouts, txns := db.txns[r := TxnPending])
      && |after.checkouts| == |db.checkouts| + 1 && after.checkouts[..|db.checkouts|] == db.checkouts
      && FreshBasket(after.checkouts[|db.checkouts|], r, now)
  {
    OneDuePriced(db);
    ApportionedCorrect(6_000, Amounts(db.dues, [0]));
  }

  lemma OneDuePriced(db: Db)
    requires db.dues == [DUE]
    ensures Amounts(db.dues, [0]) == [200_000] && Sum(Amounts(db.dues, [0])) == 200_000 && CheckoutFee(200_000) == Ok(6_000)
  {
    var amounts := Amounts(db.dues, [0]);
    assert amounts == [200_000];
    assert [200_000][..0] == [];
  }

  lemma OneDueSelected(db: Db, r: Reference, now: Time)
    requires db.dues == [DUE]
    ensures Dedupe(Basket(r, now).dueIds) == [0] && SelectionError(db, Basket(r, now)).None?
  {
    assert [0][..0] == [] && Dedupe([]) == [];
  }

  lemma {:induction false} NoneOpen(checkouts: seq<Checkout>, now: Time)
    requires forall c: CheckoutId :: c < |checkouts| ==> !IsOpen(checkouts[c], now)
    ensures OpenOverlaps(checkouts, STUDENT, [0], now) == []
  {
    if checkouts != [] { NoneOpen(checkouts[..|checkouts| - 1], now); }
  }

  // -------------------------------------------------------------- opening too late

  /** The first basket lapses, a second one is opened, and only then the first one's account
      opens, with the provider's later expiry. */
  function LateOpening(): seq<Step> {
    [PutDue(0, DUE), NewBasket(Basket(0, 0)), Tick(10)] + [NewBasket(Basket(1, 10))]
  }

  const LATE := OnCheckout(0, OpenAccount(None, 60))

  lemma FirstLapses()
    ensures var sys := After(START, [PutDue(0, DUE), NewBasket(Basket(0, 0)), Tick(10)]);
      && sys.now == 10 && sys.db.dues == [DUE] && |sys.db.checkouts| == 1 && FreshBasket(sys.db.checkouts[0], 0, 0)
      && sys.db.txns == map[0 := TxnPending] && sys.db.duePayments == []
  {
    RunThree(Next, START, PutDue(0, DUE), NewBasket(Basket(0, 0)), Tick(10));
    Basketed();
  }

  lemma SecondOpensFrom(mid: Sys)
    requires mid.now == 10 && mid.db.dues == [DUE] && |mid.db.checkouts| == 1 && FreshBasket(mid.db.checkouts[0], 0, 0)
    requires mid.db.txns == map[0 := TxnPending]
    ensures var sys := Next(mid, NewBasket(Basket(1, 10)));
      && sys.now == 10 && |sys.db.checkouts| == 2 && FreshBasket(sys.db.checkouts[0], 0, 0) && FreshBasket(sys.db.checkouts[1], 1, 10)
  {
    OneDueBasket(mid.db, 1, 10);
    assert Basket(1, 10).(now := mid.now) == Basket(1, 10);
    var after := CreateTx(mid.db, Basket(1, 10)).value.db;
    assert after.checkouts[0] == after.checkouts[..1][0];
  }

  lemma SecondOpens()
    ensures var sys := After(START, LateOpening());
      && sys.now == 10 && |sys.db.checkouts| == 2 && FreshBasket(sys.db.checkouts[0], 0, 0) && FreshBasket(sys.db.checkouts[1], 1, 10)
  {
    FirstLapses();
    RunLast(Next, START, [PutDue(0, DUE), NewBasket(Basket(0, 0)), Tick(10)], NewBasket(Basket(1, 10)));
    SecondOpensFrom(After(START, [PutDue(0, DUE), NewBasket(Basket(0, 0)), Tick(10)]));
  }

  lemma LateClash(before: Sys)
    requires before.now == 10 && |before.db.checkouts| == 2
    requires FreshBasket(before.db.checkouts[0], 0, 0) && FreshBasket(before.db.checkouts[1], 1, 10)
    ensures Disjoint(before.db.checkouts, before.now) && !Disjoint(Next(before, LATE).db.checkouts, Next(before, LATE).now)
  {
    assert !IsOpen(before.db.checkouts[0], 10);
    var after := Next(before, LATE);
    assert after.db.checkouts == before.db.checkouts[0 := before.db.checkouts[0].(providerChargeId := None, expiresAt := 60)];
    assert after.db.checkouts[0].items[0].dueId == after.db.checkouts[1].items[0].dueId;
    assert Clash(after.db.checkouts[0], after.db.checkouts[1], 10);
  }

  /** An account that opens after its provisional expiry can give a student two open checkouts for
      one due: they are apart before that last step and not after it. */
  lemma LateOpeningBreaksDisjointness()
    ensures var before := After(START, LateOpening());
      && Reachable(before) && Disjoint(before.db.checkouts, before.now)
    ensures var after := After(START, LateOpening() + [LATE]);
      && Reachable(after) && !Disjoint(after.db.checkouts, after.now)
  {
    SecondOpens();
    LateClash(After(START, LateOpening()));
    RunLast(Next, START, LateOpening(), LATE);
    StartIsReachable();
    ReachableGoesOn(START, LateOpening());
    ReachableGoesOn(START, LateOpening() + [LATE]);
  }

  // ---------------------------------------------------------- the same report again

  const REPORT := OnCheckout(0, Fulfil(206_000, 0, Some(2)))

  /** The account is opened under charge 1, and the money arrives on charge 2. */
  function OtherChargeRun(): seq<Step> { [PutDue(0, DUE), NewBasket(Basket(0, 0)), OnCheckout(0, OpenAccount(Some(1), 60))] }

  /** The due and a fresh basket for it. */
  lemma Basketed()
    ensures var sys := Next(Next(START, PutDue(0, DUE)), NewBasket(Basket(0, 0)));
      && sys.now == 0 && sys.db.dues == [DUE] && |sys.db.checkouts| == 1 && FreshBasket(sys.db.checkouts[0], 0, 0)
      && sys.db.txns == map[0 := TxnPending] && sys.db.duePayments == []
  {
    var one := Next(START, PutDue(0, DUE));
    assert one.db == EMPTY_DB.(dues := [DUE]) && one.now == 0;
    OneDueBasket(one.db, 0, 0);
    assert Basket(0, 0).(now := 0) == Basket(0, 0);
  }

  lemma OpenedUnderAnotherCharge()
    ensures var sys := After(START, OtherChargeRun());
      && sys.db.dues == [DUE] && |sys.db.checkouts| == 1 && sys.db.duePayments == []
      && sys.db.checkouts[0].status == CheckoutPending && sys.db.checkouts[0].totalKobo == 206_000
      && !sys.db.checkouts[0].needsReview && sys.db.checkouts[0].providerChargeId == Some(1)
  {
    RunThree(Next, START, PutDue(0, DUE), NewBasket(Basket(0, 0)), OnCheckout(0, OpenAccount(Some(1), 60)));
    Basketed();
  }

  lemma ReportedOnce()
    ensures var sys, once := After(START, OtherChargeRun()), After(START, OtherChargeRun() + [REPORT]);
      && |sys.db.checkouts| == 1 && FulfilOutcomeOf(sys.db, 0, 206_000) == PaidNow && !Flagged(sys.db, 0, 206_000, 0)
      && |once.db.checkouts| == 1 && once.db.checkouts[0].status == Paid && !once.db.checkouts[0].needsReview
      && once.db.checkouts[0].providerChargeId == Some(1)
  {
    OpenedUnderAnotherCharge();
    RunLast(Next, START, OtherChargeRun(), REPORT);
  }

  /** A payment on another charge than the stored one passes unflagged the first time it is
      reported, and is flagged when the very same report arrives again. */
  lemma SecondSightRaisesTheFlag(about: Lookup)
    ensures var sys := After(START, OtherChargeRun());
      && Reachable(sys) && |sys.db.checkouts| == 1
      && PaidOnAnotherCharge(sys.db, PaymentSucceeded(about, 206_000, 0, Some(2)), 0)
    ensures var once, twice := After(START, OtherChargeRun() + [REPORT]), After(START, OtherChargeRun() + [REPORT] + [REPORT]);
      && |once.db.checkouts| == 1 && !once.db.checkouts[0].needsReview
      && |twice.db.checkouts| == 1 && twice.db.checkouts[0].needsReview
  {
    StartIsReachable();
    ReachableGoesOn(START, OtherChargeRun());
    OpenedUnderAnotherCharge();
    ReportedOnce();
    RunLast(Next, START, OtherChargeRun() + [REPORT], REPORT);
  }

  // -------------------------------------------------------------- a reversal lost

  const LEAD: UserId := 1

  const REQUEST := Request(5, 0, LEAD, 100_000, None, Standing(true, true, true, false, false, true, true, true, true), false, 0, Some(LEAD), Some(9))

  function Funded(): seq<Step> { [PutDue(0, DUE), CreditByHand(STUDENT, 0, Payee(true, true), 0), Withdraw(REQUEST)] }

  /** The bank pays, says so, and later returns the money; that last report is lost. */
  function PaidThenReturned(row: Payout, p: PayoutId): seq<Step>
    requires row.destinationId.Some?
  {
    [OnPayout(p, Ask), Receive(CallFor(row), true), OnPayout(p, AcceptanceArrives)]
    + [Progress(row.reference, PaidOut), OnPayout(p, SuccessArrives), Progress(row.reference, Returned)]
  }

  /** That can happen to every withdrawal that may be sent and has not been. */
  lemma ReversalCanBeLost(sys: Sys, p: PayoutId)
    requires MayBeSent(sys, p) && RemoteOf(sys, p) == Unknown
    ensures var end := After(sys, PaidThenReturned(sys.db.payouts[p], p));
      p < |end.db.payouts| && end.db.payouts[p].status == Success && StateIs(RemoteOf(end, p), Returned)
  {
    var row := sys.db.payouts[p];
    var first := [OnPayout(p, Ask), Receive(CallFor(row), true), OnPayout(p, AcceptanceArrives)];
    var mid := After(sys, first);
    SentAndTaken(sys, p);
    RunConcat(Next, sys, first, [Progress(row.reference, PaidOut), OnPayout(p, SuccessArrives), Progress(row.reference, Returned)]);
    RunThree(Next, mid, Progress(row.reference, PaidOut), OnPayout(p, SuccessArrives), Progress(row.reference, Returned));
    PaidAndReturned(mid, p);
  }

  lemma SentAndTaken(sys: Sys, p: PayoutId)
    requires MayBeSent(sys, p) && RemoteOf(sys, p) == Unknown
    ensures var row := sys.db.payouts[p];
      var mid := After(sys, [OnPayout(p, Ask), Receive(CallFor(row), true), OnPayout(p, AcceptanceArrives)]);
      && p < |mid.db.payouts| && mid.db.payouts[p].status == Processing && mid.db.payouts[p].reference == row.reference
      && StateIs(RemoteOf(mid, p), Moving)
  {
    var row := sys.db.payouts[p];
    RunThree(Next, sys, OnPayout(p, Ask), Receive(CallFor(row), true), OnPayout(p, AcceptanceArrives));
    Reached(sys, p, true);
  }

  lemma PaidAndReturned(sys: Sys, p: PayoutId)
    requires p < |sys.db.payouts| && sys.db.payouts[p].status == Processing && StateIs(RemoteOf(sys, p), Moving)
    ensures var r := sys.db.payouts[p].reference;
      var end := Next(Next(Next(sys, Progress(r, PaidOut)), OnPayout(p, SuccessArrives)), Progress(r, Returned));
      p < |end.db.payouts| && end.db.payouts[p].status == Success && end.db.payouts[p].reference == r && StateIs(RemoteOf(end, p), Returned)
  {
    var r := sys.db.payouts[p].reference;
    var paid := Next(sys, Progress(r, PaidOut));
    Progressed(sys, p, PaidOut);
    var noted := Next(paid, OnPayout(p, SuccessArrives));
    assert noted.db.payouts[p].status == Success && noted.db.payouts[p].reference == r && RecordOf(noted, r) == RecordOf(paid, r);
  }

  lemma FundedWithdrawal()
    ensures var sys := After(START, Funded());
      |sys.db.payouts| == 1 && MayBeSent(sys, 0) && RemoteOf(sys, 0) == Unknown && sys.db.payouts[0].amount == 100_000
  {
    var due, credit := PutDue(0, DUE), CreditByHand(STUDENT, 0, Payee(true, true), 0);
    RunThree(Next, START, due, credit, Withdraw(REQUEST));
    var one := Next(START, due);
    assert one.db == EMPTY_DB.(dues := [DUE]) && one.records == map[];
    Credited(one.db);
    var two := Next(one, credit);
    assert two.db == ManualCreditTx(one.db, STUDENT, 0, Payee(true, true), 0).value && two.records == map[];
    Requested(two);
  }

  lemma Requested(sys: Sys)
    requires sys.db.payouts == [] && sys.records == map[] && SpaceBalance(sys.db.ledger, 0) == 200_000
    ensures var end := Next(sys, Withdraw(REQUEST));
      |end.db.payouts| == 1 && MayBeSent(end, 0) && RemoteOf(end, 0) == Unknown && end.db.payouts[0].amount == 100_000
  {
    RequestAllowed(sys.db, sys.now);
    var end := Next(sys, Withdraw(REQUEST));
    assert end.db == RequestTx(sys.db, REQUEST, sys.now).value && end.records == map[];
  }

  lemma RequestAllowed(db: Db, now: Time)
    requires db.payouts == [] && SpaceBalance(db.ledger, 0) == 200_000
    ensures RequestTx(db, REQUEST, now).Ok?
    ensures var after := RequestTx(db, REQUEST, now).value.payouts;
      |after| == 1 && after[0].status == Pending && after[0].destinationId == Some(9) && after[0].amount == 100_000 && after[0].reference == 5
  {
    var b := ComputeWithdrawal(100_000, 0);
    WithdrawalSplits(100_000, 0);
    NothingInTheWay(db);
    assert RequestTx(db, REQUEST, now) == Ok(AddPayout(db, NewPayout(REQUEST, b.value, now)));
  }

  lemma NothingInTheWay(db: Db)
    requires db.payouts == [] && SpaceBalance(db.ledger, 0) == 200_000
    ensures RequestError(db, REQUEST).None?
  {
    FundsClear(db, REQUEST);
    GatesClear(db, REQUEST);
    AmountClear();
    ClearRequest(db, REQUEST);
  }

  lemma AmountClear()
    ensures IsSafeInteger(100_000) && 100_000 >= MIN_PAYOUT_KOBO && ComputeWithdrawal(100_000, 0).Ok?
  {
    WithdrawalSplits(100_000, 0);
  }

  lemma ClearRequest(db: Db, req: Request)
    requires IsSafeInteger(req.amountKobo) && req.amountKobo >= MIN_PAYOUT_KOBO && ComputeWithdrawal(req.amountKobo, req.discountPercent).Ok?
    requires RequesterError(req.standing).None? && ScopeError(db, req).None? && GateError(req.standing).None? && FundsError(db, req).None?
    ensures RequestError(db, req).None?
  {
  }

  lemma FundsClear(db: Db, req: Request)
    requires db.payouts == [] && req.dueId.None? && req.amountKobo <= SpaceBalance(db.ledger, req.spaceId)
    ensures FundsError(db, req).None?
  {
  }

  lemma GatesClear(db: Db, req: Request)
    requires req.dueId.None? && req.standing == Standing(true, true, true, false, false, true, true, true, true)
    ensures RequesterError(req.standing).None? && ScopeError(db, req).None? && GateError(req.standing).None?
  {
  }

  lemma Credited(db: Db)
    requires db == EMPTY_DB.(dues := [DUE])
    ensures ManualCreditTx(db, STUDENT, 0, Payee(true, true), 0).Ok?
    ensures var after := ManualCreditTx(db, STUDENT, 0, Payee(true, true), 0).value;
      && |after.ledger| == 1 && after.ledger[0].direction == Credit && after.ledger[0].amountKobo == 200_000
      && after.ledger[0].tag.spaceId == 0 && after.payouts == [] && SpaceBalance(after.ledger, 0) == 200_000
  {
    var after := ManualCreditTx(db, STUDENT, 0, Payee(true, true), 0).value;
    assert after.ledger == [] + [after.ledger[0]];
    NetAppend([], after.ledger[0], On(InSpace(0)));
  }

  /** From the empty system to a withdrawal closed as successful whose money the bank has returned:
      its gross stays debited, and no sweep, whatever its batches and replies, ever asks about it. */
  lemma LostReversalStaysLost(undispatched: seq<PayoutId>, processing: seq<PayoutId>, answers: PayoutId -> Answer, states: PayoutId -> PayoutState, now: Time)
    ensures var sys := After(START, Funded());
      |sys.db.payouts| == 1 && sys.db.payouts[0].destinationId.Some?
    ensures var end := After(START, Funded() + PaidThenReturned(After(START, Funded()).db.payouts[0], 0));
      && Reachable(end) && |end.db.payouts| > 0 && end.db.payouts[0].status == Success && StateIs(RemoteOf(end, 0), Returned)
      && PayoutNet(end.db.ledger, 0) == -100_000
      && (InRange(undispatched, end.db) && InRange(processing, end.db) && Sorting.Distinct(undispatched) && Sorting.Distinct(processing) ==>
            var swept := SweptAll(end.db, undispatched, processing, answers, states, now);
            |swept.payouts| == |end.db.payouts| && swept.payouts[0] == end.db.payouts[0])
  {
    FundedWithdrawal();
    var sys := After(START, Funded());
    var more := PaidThenReturned(sys.db.payouts[0], 0);
    var end := After(START, Funded() + more);
    RunConcat(Next, START, Funded(), more);
    ReversalCanBeLost(sys, 0);
    RunFrame(sys, more, 0);
    StartIsReachable();
    ReachableGoesOn(START, Funded() + more);
    ReachableAgrees(end, 0);
    if InRange(undispatched, end.db) && InRange(processing, end.db) && Sorting.Distinct(undispatched) && Sorting.Distinct(processing) {
      SweepIgnoresSuccess(end.db, undispatched, processing, answers, states, now, 0);
    }
  }
}
