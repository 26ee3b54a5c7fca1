/** Provider events and reconciliation sweeps, which reach the same outcomes by different
    routes (src/services/webhookProcessor.service.ts, src/jobs/reconciliation.ts). */
module Events {
  import opened Wrappers
  import opened StateMachine
  import opened Tables
  import opened Runs
  import opened Withdrawal
  import opened Checkouts
  import opened CheckoutFacts
  import opened Books
  import opened PayoutFacts
  import opened CheckoutOutcomes
  import opened Protocol

  /** The checkout an event names: by our reference, or by the provider's own id. */
  datatype Lookup = Lookup(reference: Option<Reference>, providerCheckoutId: Option<nat>)

  datatype Event =
    | PaymentSucceeded(about: Lookup, receivedKobo: int, overpaidKobo: int, chargeId: Option<nat>)
    | PaymentUnderpaid(about: Lookup, receivedKobo: int)
    | PaymentExpired(about: Lookup)
    | PaymentFailed(about: Lookup)
    | PayoutSucceeded(payout: Option<Reference>)
    | PayoutFailed(payout: Option<Reference>)
    | IdentityUpdated
    | Ignored

  datatype EventError = CheckoutNotFound | EventWithoutReference

  function ByReference(checkouts: seq<Checkout>, r: Reference): (c: Option<CheckoutId>)
    ensures c.Some? ==> c.value < |checkouts| && checkouts[c.value].reference == r
    ensures c.None? ==> forall x: CheckoutId :: x < |checkouts| ==> checkouts[x].reference != r
  {
    if checkouts == [] then None
    else
      var n := |checkouts| - 1;
      if checkouts[n].reference == r then Some(n) else ByReference(checkouts[..n], r)
  }

  /** `accounts` holds the provider checkout ids stored so far. */
  function FindCheckoutId(db: Db, accounts: map<nat, CheckoutId>, about: Lookup): (r: Result<CheckoutId, EventError>)
    ensures r.Ok? ==> r.value < |db.checkouts|
  {
    var byReference := if about.reference.Some? then ByReference(db.checkouts, about.reference.value) else None;
    if byReference.Some? then Ok(byReference.value)
    else if about.providerCheckoutId.Some? && about.providerCheckoutId.value in accounts
         && accounts[about.providerCheckoutId.value] < |db.checkouts|
      then Ok(accounts[about.providerCheckoutId.value])
    else Err(CheckoutNotFound)
  }

  /** An event with one of our references always finds the checkout it names. */
  lemma ReferenceFindsItsCheckout(db: Db, accounts: map<nat, CheckoutId>, c: CheckoutId, providerId: Option<nat>)
    requires ReferencesDistinct(db.checkouts) && c < |db.checkouts|
    ensures FindCheckoutId(db, accounts, Lookup(Some(db.checkouts[c].reference), providerId)) == Ok(c)
  {
    var found := ByReference(db.checkouts, db.checkouts[c].reference).value;
    assert found == c || found < c || c < found;
  }

  predicate AboutCheckout(e: Event) { e.PaymentSucceeded? || e.PaymentUnderpaid? || e.PaymentExpired? || e.PaymentFailed? }

  predicate AboutPayout(e: Event) { e.PayoutSucceeded? || e.PayoutFailed? }

  function OnFoundCheckout(db: Db, e: Event, c: CheckoutId, now: Time): Db
    requires c < |db.checkouts|
  {
    match e
    case PaymentSucceeded(_, received, overpaid, chargeId) => SuccessEffect(db, c, received, overpaid, chargeId, now)
    case PaymentUnderpaid(_, received) => UnderpaidTx(db, c, received, now)
    case PaymentExpired(_) => ExpireTx(db, c, now)
    case PaymentFailed(_) => ExpireTx(db, c, now)
    case _ => db
  }

  function OnPayoutReference(db: Db, e: Event, r: Reference): Db {
    match FindPayout(db.payouts, r)
    case None => db
    case Some(p) => if e.PayoutSucceeded? then CompleteTx(db, p) else if e.PayoutFailed? then FailTx(db, p) else db
  }

  /** What handling an event leaves behind, or why it throws. */
  function EventEffect(db: Db, accounts: map<nat, CheckoutId>, e: Event, now: Time): Result<Db, EventError> {
    if AboutCheckout(e) then
      match FindCheckoutId(db, accounts, e.about)
      case Err(error) => Err(error)
      case Ok(c) => Ok(OnFoundCheckout(db, e, c, now))
    else if AboutPayout(e) then
      match e.payout case None => Err(EventWithoutReference) case Some(p) => Ok(OnPayoutReference(db, e, p))
    else Ok(db)
  }

  method ProcessEvent(db: Database, accounts: map<nat, CheckoutId>, event: Event, now: Time) returns (r: Result<(), EventError>)
    requires forall c: CheckoutId :: c < |db.checkouts| ==> CanSettle(db.dues, db.checkouts[c])
    requires forall p: PayoutId :: p < |db.payouts| ==> Restorable(db.payouts[p])
    modifies db
    ensures match EventEffect(old(db.Snapshot()), accounts, event, now)
      case Err(e) => r == Err(e) && db.Snapshot() == old(db.Snapshot())
      case Ok(after) => r.Ok? && db.Snapshot() == after
  {
    match event {
      case PaymentSucceeded(about, received, overpaid, chargeId) =>
        var id := FindCheckoutId(db.Snapshot(), accounts, about);
        if id.Err? { return Err(id.error); }
        ApplySuccess(db, id.value, received, overpaid, chargeId, now);
      case PaymentUnderpaid(about, received) =>
        var id := FindCheckoutId(db.Snapshot(), accounts, about);
        if id.Err? { return Err(id.error); }
        var _ := MarkUnderpaid(db, id.value, received, now);
      case PaymentExpired(about) =>
        var id := FindCheckoutId(db.Snapshot(), accounts, about);
        if id.Err? { return Err(id.error); }
        var _ := ExpireCheckout(db, id.value, now);
      case PaymentFailed(about) =>
        var id := FindCheckoutId(db.Snapshot(), accounts, about);
        if id.Err? { return Err(id.error); }
        var _ := ExpireCheckout(db, id.value, now);
      case PayoutSucceeded(reference) =>
        if reference.None? { return Err(EventWithoutReference); }
        var _ := CompletePayout(db, reference.value);
      case PayoutFailed(reference) =>
        if reference.None? { return Err(EventWithoutReference); }
        var _ := FailPayoutByReference(db, reference.value);
      case IdentityUpdated =>
      case Ignored =>
    }
    return Ok(());
  }

  // ------------------------------------------------------- what each event writes

  /** The event names this checkout: by its reference or, if no checkout has the reference given, by the
      provider's id stored for it. */
  ghost predicate Names(db: Db, accounts: map<nat, CheckoutId>, about: Lookup, c: CheckoutId) {
    && c < |db.checkouts|
    && (about.reference == Some(db.checkouts[c].reference)
        || ((forall x: CheckoutId :: x < |db.checkouts| ==> about.reference != Some(db.checkouts[x].reference))
            && about.providerCheckoutId.Some? && about.providerCheckoutId.value in accounts && accounts[about.providerCheckoutId.value] == c))
  }

  lemma FindsTheNamed(db: Db, accounts: map<nat, CheckoutId>, about: Lookup, c: CheckoutId)
    requires ReferencesDistinct(db.checkouts)
    ensures FindCheckoutId(db, accounts, about) == Ok(c) <==> Names(db, accounts, about, c)
  {
    if about.reference.Some? && ByReference(db.checkouts, about.reference.value).Some? {
      var found := ByReference(db.checkouts, about.reference.value).value;
      if c < |db.checkouts| && db.checkouts[c].reference == about.reference.value {
        assert found == c || found < c || c < found;
      }
    }
  }

  /** An event that names no checkout fails, and leaves the tables alone. */
  lemma UnnamedEventFails(db: Db, accounts: map<nat, CheckoutId>, e: Event, now: Time)
    requires ReferencesDistinct(db.checkouts) && (e.PaymentSucceeded? || e.PaymentUnderpaid? || e.PaymentExpired? || e.PaymentFailed?)
    ensures EventEffect(db, accounts, e, now).Err? <==> forall c: CheckoutId :: !Names(db, accounts, e.about, c)
  {
    if FindCheckoutId(db, accounts, e.about).Ok? {
      FindsTheNamed(db, accounts, e.about, FindCheckoutId(db, accounts, e.about).value);
    } else {
      forall c: CheckoutId ensures !Names(db, accounts, e.about, c) { FindsTheNamed(db, accounts, e.about, c); }
    }
  }

  /** What each kind of event does to the checkout it names, and that it does nothing else: an expired or
      failed one closes it, an underpaid one notes the amount, and a successful one pays it exactly if the
      amount covers the total. */
  lemma CheckoutEventWrites(db: Db, accounts: map<nat, CheckoutId>, e: Event, now: Time, c: CheckoutId)
    requires Sound(db) && CheckoutsOk(db)
    requires e.PaymentSucceeded? || e.PaymentUnderpaid? || e.PaymentExpired? || e.PaymentFailed?
    requires Names(db, accounts, e.about, c)
    ensures EventEffect(db, accounts, e, now).Ok?
    ensures var after := EventEffect(db, accounts, e, now).value;
      match e
      case PaymentSucceeded(_, received, overpaid, chargeId) =>
        if db.checkouts[c].status == Paid then after == SeenPaid(db, c, chargeId)
        else if received < db.checkouts[c].totalKobo then after == ShortNoted(db, c, received, now)
        else PaidBy(db, after, c, received, overpaid, now)
      case PaymentUnderpaid(_, received) => after == ShortNoted(db, c, received, now)
      case _ => after == ClosedUnpaid(db, c, now)
  {
    FindsTheNamed(db, accounts, e.about, c);
    match e
    case PaymentSucceeded(_, received, overpaid, chargeId) => SuccessWrites(db, c, received, overpaid, chargeId, now);
    case PaymentUnderpaid(_, received) => ShortPaymentWrites(db, c, received, now);
    case _ => ExpiryWrites(db, c, now);
  }

  lemma SuccessWrites(db: Db, c: CheckoutId, received: int, overpaid: int, chargeId: Option<nat>, now: Time)
    requires Sound(db) && CheckoutsOk(db) && c < |db.checkouts|
    ensures var after := SuccessEffect(db, c, received, overpaid, chargeId, now);
      if db.checkouts[c].status == Paid then after == SeenPaid(db, c, chargeId)
      else if received < db.checkouts[c].totalKobo then after == ShortNoted(db, c, received, now)
      else PaidBy(db, after, c, received, overpaid, now)
  {
    if db.checkouts[c].status == Paid {
      SeenPaidWrites(db, c, received, overpaid, chargeId, now);
    } else if received < db.checkouts[c].totalKobo {
      ShortReportWrites(db, c, received, overpaid, chargeId, now);
    } else {
      CoveringReportWrites(db, c, received, overpaid, chargeId, now);
    }
  }

  /** And what a payout report does to the withdrawal it names: a success closes a processing one, */
  lemma PayoutSuccessWrites(db: Db, accounts: map<nat, CheckoutId>, now: Time, p: PayoutId)
    requires Sound(db) && ReferencesApart(db.payouts) && p < |db.payouts|
    ensures EventEffect(db, accounts, PayoutSucceeded(Some(db.payouts[p].reference)), now)
         == Ok(if db.payouts[p].status != Processing then db
               else db.(payouts := db.payouts[p := db.payouts[p].(status := Success, activeSpaceId := None)]))
  {
    PayoutEventApplies(db, accounts, now, p);
    OutcomesWrite(db, p);
  }

  /** and a failure fails an open one, reverses a successful one, and gives the gross back. */
  lemma PayoutFailureWrites(db: Db, accounts: map<nat, CheckoutId>, now: Time, p: PayoutId)
    requires Sound(db) && ReferencesApart(db.payouts) && p < |db.payouts|
    ensures EventEffect(db, accounts, PayoutFailed(Some(db.payouts[p].reference)), now)
         == Ok(if db.payouts[p].status in {Pending, Processing} then GivenBackAs(db, p, db.payouts[p].(status := Failed, activeSpaceId := None))
               else if db.payouts[p].status == Success then GivenBackAs(db, p, db.payouts[p].(status := Reversed, activeSpaceId := None))
               else db)
  {
    PayoutEventApplies(db, accounts, now, p);
    OutcomesWrite(db, p);
  }

  lemma PayoutEventApplies(db: Db, accounts: map<nat, CheckoutId>, now: Time, p: PayoutId)
    requires ReferencesApart(db.payouts) && p < |db.payouts|
    ensures EventEffect(db, accounts, PayoutSucceeded(Some(db.payouts[p].reference)), now) == Ok(CompleteTx(db, p))
    ensures EventEffect(db, accounts, PayoutFailed(Some(db.payouts[p].reference)), now) == Ok(FailTx(db, p))
  {
    FindsItself(db.payouts, p);
  }

  /** A report with an unknown reference does nothing, one without a reference fails, and no other event
      touches a table. */
  lemma OtherEventsWriteNothing(db: Db, accounts: map<nat, CheckoutId>, e: Event, now: Time)
    requires e.PayoutSucceeded? || e.PayoutFailed? || e.IdentityUpdated? || e.Ignored?
    requires (e.PayoutSucceeded? || e.PayoutFailed?) && e.payout.Some? ==>
      forall p: PayoutId :: p < |db.payouts| ==> db.payouts[p].reference != e.payout.value
    ensures EventEffect(db, accounts, e, now)
         == if (e.PayoutSucceeded? || e.PayoutFailed?) && e.payout.None? then Err(EventWithoutReference) else Ok(db)
  {
  }

  // --------------------------------------------------------------- redelivery

  /** A payment counted under a charge other than the account's own, with nothing else about it
      to flag. */
  predicate PaidOnAnotherCharge(db: Db, e: Event, c: CheckoutId)
    requires c < |db.checkouts|
  {
    && e.PaymentSucceeded? && FulfilOutcomeOf(db, c, e.receivedKobo) == PaidNow
    && OtherCharge(db.checkouts[c], e.chargeId)
    && !Flagged(db, c, e.receivedKobo, e.overpaidKobo) && !db.checkouts[c].needsReview
  }

  /** Handling a checkout event again changes nothing at all, except that a payment made on
      another charge is flagged for review the second time it is seen. */
  lemma RedeliveryChangesNothing(db: Db, e: Event, c: CheckoutId, now: Time, later: Time)
    requires c < |db.checkouts|
    ensures |OnFoundCheckout(db, e, c, now).checkouts| == |db.checkouts|
    ensures OnFoundCheckout(OnFoundCheckout(db, e, c, now), e, c, later) == OnFoundCheckout(db, e, c, now)
       <==> !PaidOnAnotherCharge(db, e, c)
  {
    if e.PaymentSucceeded? {
      SuccessAgain(db, c, e.receivedKobo, e.overpaidKobo, e.chargeId, now, later);
    }
  }

  lemma SuccessAgain(db: Db, c: CheckoutId, received: int, overpaid: int, chargeId: Option<nat>, now: Time, later: Time)
    requires c < |db.checkouts|
    ensures |SuccessEffect(db, c, received, overpaid, chargeId, now).checkouts| == |db.checkouts|
    ensures var once := SuccessEffect(db, c, received, overpaid, chargeId, now);
      SuccessEffect(once, c, received, overpaid, chargeId, later) == once
      <==> !PaidOnAnotherCharge(db, PaymentSucceeded(Lookup(None, None), received, overpaid, chargeId), c)
  {
    if FulfilOutcomeOf(db, c, received) == PaidNow { PaidAgain(db, c, received, overpaid, chargeId, now, later); }
  }

  lemma PaidAgain(db: Db, c: CheckoutId, received: int, overpaid: int, chargeId: Option<nat>, now: Time, later: Time)
    requires c < |db.checkouts| && FulfilOutcomeOf(db, c, received) == PaidNow
    ensures var once := FulfilTx(db, c, received, overpaid, chargeId, now);
      && |once.checkouts| == |db.checkouts| && once.checkouts[c] == PaidRow(db, c, received, overpaid, now)
      && FulfilOutcomeOf(once, c, received) == AlreadyPaidBefore
      && (FulfilTx(once, c, received, overpaid, chargeId, later) == once <==>
            !OtherCharge(db.checkouts[c], chargeId) || once.checkouts[c].needsReview)
  {
    var once := FulfilTx(db, c, received, overpaid, chargeId, now);
    assert once.checkouts[c].status == Paid && once.checkouts[c].providerChargeId == db.checkouts[c].providerChargeId;
    SeenAgain(once, c, received, overpaid, chargeId, later);
  }

  /** On a paid checkout a report at most raises the flag. */
  lemma SeenAgain(db: Db, c: CheckoutId, received: int, overpaid: int, chargeId: Option<nat>, now: Time)
    requires c < |db.checkouts| && db.checkouts[c].status == Paid
    ensures FulfilTx(db, c, received, overpaid, chargeId, now) == db <==> !OtherCharge(db.checkouts[c], chargeId) || db.checkouts[c].needsReview
  {
    var raised := db.checkouts[c].(needsReview := true);
    if db.checkouts[c].needsReview { assert db.checkouts[c := raised] == db.checkouts; }
    if !db.checkouts[c].needsReview { assert db.checkouts[c := raised][c] != db.checkouts[c]; }
  }

  /** A payout report repeated changes nothing. */
  lemma PayoutReportChangesNothing(db: Db, e: Event, r: Reference)
    ensures OnPayoutReference(OnPayoutReference(db, e, r), e, r) == OnPayoutReference(db, e, r)
  {
    var once := OnPayoutReference(db, e, r);
    forall p: PayoutId | p < |db.payouts| ensures |once.payouts| == |db.payouts| && once.payouts[p].reference == db.payouts[p].reference {
    }
    SameReferencesFindTheSame(db.payouts, once.payouts, r);
  }

  lemma {:induction false} SameReferencesFindTheSame(a: seq<Payout>, b: seq<Payout>, r: Reference)
    requires |a| == |b| && forall p: PayoutId :: p < |a| ==> a[p].reference == b[p].reference
    ensures FindPayout(a, r) == FindPayout(b, r)
  {
    if a != [] { SameReferencesFindTheSame(a[..|a| - 1], b[..|b| - 1], r); }
  }

  // ---------------------------------------------------------------- one system

  function StepsOf(db: Db, e: Event, c: CheckoutId): seq<Step>
    requires c < |db.checkouts|
  {
    match e
    case PaymentSucceeded(_, received, overpaid, chargeId) =>
      [OnCheckout(c, Fulfil(received, overpaid, chargeId))]
      + if FulfilOutcomeOf(db, c, received) == Short then [OnCheckout(c, ShortPayment(received))] else []
    case PaymentUnderpaid(_, received) => [OnCheckout(c, ShortPayment(received))]
    case PaymentExpired(_) => [OnCheckout(c, Protocol.Expire)]
    case PaymentFailed(_) => [OnCheckout(c, Protocol.Expire)]
    case _ => []
  }

  lemma CheckoutStepIs(sys: Sys, c: CheckoutId, act: CheckoutMove)
    requires c < |sys.db.checkouts|
    ensures After(sys, [OnCheckout(c, act)]) == sys.(db := MoveCheckout(sys.db, c, act, sys.now))
  {
    RunOne(Next, sys, OnCheckout(c, act));
  }

  lemma ShortIsTwoSteps(sys: Sys, c: CheckoutId, received: int, overpaid: int, chargeId: Option<nat>)
    requires c < |sys.db.checkouts| && FulfilOutcomeOf(sys.db, c, received) == Short
    ensures After(sys, [OnCheckout(c, Fulfil(received, overpaid, chargeId))] + [OnCheckout(c, ShortPayment(received))])
         == sys.(db := UnderpaidTx(sys.db, c, received, sys.now))
  {
    RunOne(Next, sys, OnCheckout(c, Fulfil(received, overpaid, chargeId)));
    CheckoutStepIs(sys, c, Fulfil(received, overpaid, chargeId));
    assert FulfilTx(sys.db, c, received, overpaid, chargeId, sys.now) == sys.db;
    RunFirst(Next, sys, OnCheckout(c, Fulfil(received, overpaid, chargeId)), [OnCheckout(c, ShortPayment(received))]);
    CheckoutStepIs(sys, c, ShortPayment(received));
  }

  /** Handling a checkout event is a run of the system's own steps, so whatever holds of every
      run holds across webhooks and sweeps. */
  lemma EventIsARun(sys: Sys, e: Event, c: CheckoutId)
    requires c < |sys.db.checkouts|
    ensures After(sys, StepsOf(sys.db, e, c)) == sys.(db := OnFoundCheckout(sys.db, e, c, sys.now))
  {
    match e
    case PaymentSucceeded(_, received, overpaid, chargeId) =>
      if FulfilOutcomeOf(sys.db, c, received) == Short {
        ShortIsTwoSteps(sys, c, received, overpaid, chargeId);
      } else {
        CheckoutStepIs(sys, c, Fulfil(received, overpaid, chargeId));
        assert StepsOf(sys.db, e, c) == [OnCheckout(c, Fulfil(received, overpaid, chargeId))];
      }
    case PaymentUnderpaid(_, received) => CheckoutStepIs(sys, c, ShortPayment(received));
    case PaymentExpired(_) => CheckoutStepIs(sys, c, Protocol.Expire);
    case PaymentFailed(_) => CheckoutStepIs(sys, c, Protocol.Expire);
    case _ =>
  }

  /** The provider reports no outcome it has not seen. */
  predicate Truthful(e: Event, remote: Remote) {
    match e
    case PayoutSucceeded(_) => StateIs(remote, PaidOut) || StateIs(remote, Returned)
    case PayoutFailed(_) => StateIs(remote, Bounced) || StateIs(remote, Returned)
    case _ => true
  }

  /** So is handling a payout report about a reference the tables know. */
  lemma PayoutEventIsARun(sys: Sys, e: Event, r: Reference)
    requires FindPayout(sys.db.payouts, r).Some? && AboutPayout(e) && Truthful(e, RecordOf(sys, r))
    ensures var p := FindPayout(sys.db.payouts, r).value;
      After(sys, [OnPayout(p, if e.PayoutSucceeded? then SuccessArrives else FailureArrives)])
      == sys.(db := OnPayoutReference(sys.db, e, r))
  {
    var p := FindPayout(sys.db.payouts, r).value;
    RunOne(Next, sys, OnPayout(p, if e.PayoutSucceeded? then SuccessArrives else FailureArrives));
  }

  /** Creating a checkout, opening its account, resolving its review and crediting by hand are one step
      each. */
  lemma OtherWritesAreRuns(sys: Sys, req: CheckoutRequest, c: CheckoutId, chargeId: Option<nat>, expiresAt: Time,
      user: UserId, due: DueId, payee: Payee, reference: Reference)
    ensures var asked := req.(now := sys.now);
      After(sys, [NewBasket(req)]) == if CreateTx(sys.db, asked).Ok? then sys.(db := CreateTx(sys.db, asked).value.db) else sys
    ensures After(sys, [CreditByHand(user, due, payee, reference)])
         == var r := ManualCreditTx(sys.db, user, due, payee, reference); if r.Ok? then sys.(db := r.value) else sys
    ensures c < |sys.db.checkouts| ==>
      After(sys, [OnCheckout(c, OpenAccount(chargeId, expiresAt))])
      == sys.(db := sys.db.(checkouts := sys.db.checkouts[c := sys.db.checkouts[c].(providerChargeId := chargeId, expiresAt := expiresAt)]))
    ensures c < |sys.db.checkouts| ==>
      After(sys, [OnCheckout(c, Resolve)])
      == sys.(db := sys.db.(checkouts := sys.db.checkouts[c := sys.db.checkouts[c].(needsReview := false)]))
  {
    RunOne(Next, sys, NewBasket(req));
    RunOne(Next, sys, CreditByHand(user, due, payee, reference));
    RunOne(Next, sys, OnCheckout(c, OpenAccount(chargeId, expiresAt)));
    RunOne(Next, sys, OnCheckout(c, Resolve));
  }
}
