/** Checkouts and their outcomes (src/services/checkout.service.ts). */
module Checkouts {
  import opened Wrappers
  import opened Money
  import opened Sorting
  import opened Sums
  import opened StateMachine
  import opened Tables
  import opened Ledger
  import opened Books

  const MAX_DUES_PER_CHECKOUT: nat := 20

  // -------------------------------------------------------------------- baskets

  /** The first occurrence of each requested due. */
  function Dedupe(ids: seq<DueId>): seq<DueId> {
    if ids == [] then []
    else
      var front, last := Dedupe(ids[..|ids| - 1]), ids[|ids| - 1];
      if last in front then front else front + [last]
  }

  predicate AtMost(a: nat, b: nat) { a <= b }

  /** The basket's key: its due ids in order. */
  function DueSetKey(ids: seq<DueId>): seq<DueId> { Sort(AtMost, ids) }

  predicate Known(dues: seq<Due>, ids: seq<DueId>) { forall i :: 0 <= i < |ids| ==> ids[i] < |dues| }

  function Amounts(dues: seq<Due>, ids: seq<DueId>): (r: seq<nat>)
    requires Known(dues, ids)
    ensures |r| == |ids| && forall i :: 0 <= i < |r| ==> r[i] == dues[ids[i]].amount
  {
    seq(|ids|, i requires 0 <= i < |ids| => dues[ids[i]].amount)
  }

  function ItemsFor(ids: seq<DueId>, amounts: seq<nat>, fees: seq<int>): (r: seq<Item>)
    requires |ids| == |amounts| == |fees|
    ensures |r| == |ids| && forall i :: 0 <= i < |r| ==> r[i] == Item(ids[i], amounts[i], fees[i])
  {
    seq(|ids|, i requires 0 <= i < |ids| => Item(ids[i], amounts[i], fees[i]))
  }

  function DueIds(items: seq<Item>): (r: seq<DueId>)
    ensures |r| == |items| && forall i :: 0 <= i < |r| ==> r[i] == items[i].dueId
  {
    seq(|items|, i requires 0 <= i < |items| => items[i].dueId)
  }

  // -------------------------------------------------------------------- creation

  /** What was looked up about the payer, the space and the dues before the transaction. */
  datatype Eligibility = Eligibility(
    userKnown: bool, archived: bool, allActive: bool, guest: bool, guestsAllowed: bool, member: bool, foundPaid: bool, leadCanCollect: bool)

  /** A request, with those findings and the fresh reference drawn for it. */
  datatype CheckoutRequest = CheckoutRequest(
    userId: UserId, dueIds: seq<DueId>, eligibility: Eligibility,
    reference: Reference, now: Time, expiryMs: nat)

  datatype CheckoutError =
    | BadSelection | UserNotFound | DueNotFound | MixedSpaces | SpaceArchived | DueNotPayable | GuestsNotAllowed
    | NotAMember | DueAlreadyPaid | SpaceNotVerified | CheckoutOverlap | AmountOutOfRange | NoReference

  datatype Created = Created(db: Db, id: CheckoutId, reused: bool)

  predicate IsOpen(c: Checkout, now: Time) { c.status == CheckoutPending && c.expiresAt > now }

  predicate Touches(c: Checkout, ids: seq<DueId>) { exists k :: 0 <= k < |c.items| && c.items[k].dueId in ids }

  predicate OpenOverlap(c: Checkout, user: UserId, ids: seq<DueId>, now: Time) {
    c.userId == user && IsOpen(c, now) && Touches(c, ids)
  }

  /** The student's open checkouts that share a due with the basket. */
  function OpenOverlaps(checkouts: seq<Checkout>, user: UserId, ids: seq<DueId>, now: Time): (r: seq<CheckoutId>)
    ensures forall c: CheckoutId :: c in r <==> c < |checkouts| && OpenOverlap(checkouts[c], user, ids, now)
  {
    if checkouts == [] then []
    else
      var n := |checkouts| - 1;
      OpenOverlaps(checkouts[..n], user, ids, now) + if OpenOverlap(checkouts[n], user, ids, now) then [n] else []
  }

  function FindSame(checkouts: seq<Checkout>, open: seq<CheckoutId>, key: seq<DueId>): (r: Option<CheckoutId>)
    requires forall c: CheckoutId :: c in open ==> c < |checkouts|
    ensures r.Some? ==> r.value in open && checkouts[r.value].dueSetKey == key
    ensures r.None? ==> forall c: CheckoutId :: c in open ==> checkouts[c].dueSetKey != key
  {
    if open == [] then None
    else
      assert open[0] in open && forall c: CheckoutId :: c in open[1..] ==> c in open;
      if checkouts[open[0]].dueSetKey == key then Some(open[0])
      else FindSame(checkouts, open[1..], key)
  }

  predicate FreshReference(db: Db, r: Reference) {
    r !in db.txns && forall c: CheckoutId :: c < |db.checkouts| ==> db.checkouts[c].reference != r
  }

  function SelectionError(db: Db, req: CheckoutRequest): Option<CheckoutError> {
    var ids := Dedupe(req.dueIds);
    if |ids| == 0 || |ids| > MAX_DUES_PER_CHECKOUT then Some(BadSelection)
    else if !req.eligibility.userKnown then Some(UserNotFound)
    else if !Known(db.dues, ids) then Some(DueNotFound)
    else if exists i :: 0 <= i < |ids| && db.dues[ids[i]].spaceId != db.dues[ids[0]].spaceId then Some(MixedSpaces)
    else if EligibilityError(req.eligibility).Some? then EligibilityError(req.eligibility)
    else None
  }

  function EligibilityError(e: Eligibility): Option<CheckoutError> {
    if e.archived then Some(SpaceArchived)
    else if !e.allActive then Some(DueNotPayable)
    else if e.guest && !e.guestsAllowed then Some(GuestsNotAllowed)
    else if !e.guest && !e.member then Some(NotAMember)
    else if e.foundPaid then Some(DueAlreadyPaid)
    else if !e.leadCanCollect then Some(SpaceNotVerified)
    else None
  }

  function NewCheckout(req: CheckoutRequest, s: SpaceId, ids: seq<DueId>, amounts: seq<nat>, fee: nat): Checkout
    requires |ids| == |amounts|
  {
    SumNonNegative(amounts);
    ApportionedCorrect(fee, amounts);
    Checkout(req.reference, req.userId, s, CheckoutPending,
             Sum(amounts), fee, Sum(amounts) + fee, ItemsFor(ids, amounts, Apportioned(fee, amounts)), DueSetKey(ids),
             None, 0, None, req.now + req.expiryMs, None, None, None, false)
  }

  function CreateTx(db: Db, req: CheckoutRequest): Result<Created, CheckoutError> {
    match SelectionError(db, req)
    case Some(e) => Err(e)
    case None =>
      var ids := Dedupe(req.dueIds);
      match LookForOpen(db, req, ids)
      case Err(e) => Err(e)
      case Ok(Some(c)) => Ok(Created(db, c, true))
      case Ok(None) => Ok(Created(Opened(db, req, ids), |db.checkouts|, false))
  }

  /** Under the student's lock: an open checkout to hand back, a refusal, or the way clear. */
  function LookForOpen(db: Db, req: CheckoutRequest, ids: seq<DueId>): Result<Option<CheckoutId>, CheckoutError>
    requires Known(db.dues, ids)
  {
    var open := OpenOverlaps(db.checkouts, req.userId, ids, req.now);
    var same := FindSame(db.checkouts, open, DueSetKey(ids));
    if same.Some? then Ok(same)
    else if open != [] then Err(CheckoutOverlap)
    else if CheckoutFee(Sum(Amounts(db.dues, ids))).Err? then Err(AmountOutOfRange)
    else if !FreshReference(db, req.reference) then Err(NoReference)
    else Ok(None)
  }

  /** The tables with the new checkout and its pending transaction. */
  function Opened(db: Db, req: CheckoutRequest, ids: seq<DueId>): Db
    requires 0 < |ids| && Known(db.dues, ids) && CheckoutFee(Sum(Amounts(db.dues, ids))).Ok?
  {
    var amounts := Amounts(db.dues, ids);
    FeeNotNegative(Sum(amounts));
    var checkout := NewCheckout(req, db.dues[ids[0]].spaceId, ids, amounts, CheckoutFee(Sum(amounts)).value);
    db.(checkouts := db.checkouts + [checkout], txns := db.txns[req.reference := TxnPending])
  }

  lemma FeeNotNegative(face: int)
    ensures CheckoutFee(face).Ok? ==> 0 <= CheckoutFee(face).value
  {
    if CheckoutFee(face).Ok? { RoundsHalfUp(face, CHECKOUT_FEE_PERCENT, 100); }
  }

  method CreateCheckout(db: Database, req: CheckoutRequest) returns (r: Result<(CheckoutId, bool), CheckoutError>)
    modifies db
    ensures match CreateTx(old(db.Snapshot()), req)
      case Err(e) => r == Err(e) && db.Snapshot() == old(db.Snapshot())
      case Ok(c) => r == Ok((c.id, c.reused)) && db.Snapshot() == c.db
  {
    var ids := Dedupe(req.dueIds);
    var refusal := SelectionError(db.Snapshot(), req);
    if refusal.Some? { return Err(refusal.value); }
    var found := LookForOpen(db.Snapshot(), req, ids);
    if found.Err? { return Err(found.error); }
    if found.value.Some? { return Ok((found.value.value, true)); }
    FeeIsKobo(Sum(Amounts(db.dues, ids)));
    OpenCheckout(db, req, ids);
    return Ok((|db.checkouts| - 1, false));
  }

  method OpenCheckout(db: Database, req: CheckoutRequest, ids: seq<DueId>)
    requires 0 < |ids| && Known(db.dues, ids) && CheckoutFee(Sum(Amounts(db.dues, ids))).Ok?
    requires IsKobo(CheckoutFee(Sum(Amounts(db.dues, ids))).value)
    modifies db`checkouts, db`txns
    ensures db.Snapshot() == Opened(old(db.Snapshot()), req, ids)
  {
    var checkout := PriceBasket(req, db.dues[ids[0]].spaceId, ids, Amounts(db.dues, ids));
    db.checkouts := db.checkouts + [checkout];
    db.txns := db.txns[req.reference := TxnPending];
  }

  /** One fee for the whole basket, apportioned over its lines by face. */
  method PriceBasket(req: CheckoutRequest, s: SpaceId, ids: seq<DueId>, amounts: seq<nat>) returns (checkout: Checkout)
    requires |ids| == |amounts| && CheckoutFee(Sum(amounts)).Ok? && IsKobo(CheckoutFee(Sum(amounts)).value)
    ensures checkout == NewCheckout(req, s, ids, amounts, CheckoutFee(Sum(amounts)).value)
  {
    var face := Sum(amounts);
    var fee := CheckoutFee(face).value;
    var shares := Allocate(fee, amounts);
    ApportionedCorrect(fee, amounts);
    checkout := Checkout(req.reference, req.userId, s, CheckoutPending,
                         face, fee, face + fee, ItemsFor(ids, amounts, shares.value), DueSetKey(ids),
                         None, 0, None, req.now + req.expiryMs, None, None, None, false);
  }

  lemma FeeIsKobo(face: int)
    requires CheckoutFee(face).Ok?
    ensures IsKobo(CheckoutFee(face).value)
  {
    FeeNotNegative(face);
  }

  /** The provider's answer once it has opened the account. Not guarded by the status. */
  function OpenAccountTx(db: Db, c: CheckoutId, chargeId: Option<nat>, expiresAt: Time): Db
    requires c < |db.checkouts|
  {
    db.(checkouts := db.checkouts[c := db.checkouts[c].(providerChargeId := chargeId, expiresAt := expiresAt)])
  }

  // -------------------------------------------------------------------- outcomes

  datatype FulfilOutcome = PaidNow | AlreadyPaidBefore | Short

  predicate CanSettle(dues: seq<Due>, c: Checkout) {
    && (forall i :: 0 <= i < |c.items| ==>
          && c.items[i].dueId < |dues| && dues[c.items[i].dueId].spaceId == c.spaceId
          && 0 < c.items[i].faceKobo && IsSafeInteger(c.items[i].faceKobo) && 0 <= c.items[i].feeKobo)
    && (forall i, j :: 0 <= i < j < |c.items| ==> c.items[i].dueId != c.items[j].dueId)
  }

  function LineFor(c: CheckoutId, co: Checkout, it: Item, link: Option<Reference>): DuePayment {
    DuePayment(co.userId, it.dueId, Some(c), link, it.faceKobo + it.feeKobo, it.feeKobo, it.faceKobo)
  }

  /** Settles the basket line by line. Lines found paid beforehand (`seen`) are skipped; the
      transaction row is linked to the first line written. */
  function SettleLines(db: Db, c: CheckoutId, co: Checkout, items: seq<Item>, link: Option<Reference>, seen: seq<DuePayment>): Db
    decreases |items|
  {
    if items == [] then db
    else if AlreadyPaid(seen, co.userId, items[0].dueId) then SettleLines(db, c, co, items[1..], link, seen)
    else SettleLines(AddPayment(db, LineFor(c, co, items[0], link)), c, co, items[1..], None, seen)
  }

  predicate PaidByOther(dp: DuePayment, c: CheckoutId, co: Checkout, it: Item) {
    dp.userId == co.userId && dp.dueId == it.dueId && dp.checkoutId != Some(c)
  }

  predicate PaidElsewhere(db: Db, c: CheckoutId, co: Checkout) {
    exists i, k :: 0 <= i < |co.items| && 0 <= k < |db.duePayments| && PaidByOther(db.duePayments[k], c, co, co.items[i])
  }

  function Excess(co: Checkout, received: int, overpaid: int): int {
    if overpaid > received - co.totalKobo then overpaid else received - co.totalKobo
  }

  function LinkFor(db: Db, co: Checkout): Option<Reference> {
    if co.reference in db.txns && !(exists k :: 0 <= k < |db.duePayments| && db.duePayments[k].txnId == Some(co.reference))
    then Some(co.reference) else None
  }

  predicate Flagged(db: Db, c: CheckoutId, received: int, overpaid: int)
    requires c < |db.checkouts|
  {
    var co := db.checkouts[c];
    Excess(co, received, overpaid) > 0 || co.status in {Expired, Underpaid} || PaidElsewhere(db, c, co)
  }

  predicate OtherCharge(co: Checkout, chargeId: Option<nat>) {
    chargeId.Some? && co.providerChargeId.Some? && chargeId != co.providerChargeId
  }

  predicate Covers(db: Db, c: CheckoutId, received: int)
    requires c < |db.checkouts|
  {
    received >= db.checkouts[c].totalKobo
  }

  function PaidRow(db: Db, c: CheckoutId, received: int, overpaid: int, now: Time): Checkout
    requires c < |db.checkouts|
  {
    var co := db.checkouts[c];
    co.(status := Paid, paidAt := Some(now), receivedKobo := Some(received), overpaidKobo := Excess(co, received, overpaid),
        needsReview := Flagged(db, c, received, overpaid) || co.needsReview)
  }

  function FulfilTx(db: Db, c: CheckoutId, received: int, overpaid: int, chargeId: Option<nat>, now: Time): Db
    requires c < |db.checkouts|
  {
    var co := db.checkouts[c];
    if co.status == Paid then
      if OtherCharge(co, chargeId) then db.(checkouts := db.checkouts[c := co.(needsReview := true)]) else db
    else if !Covers(db, c, received) then db
    else
      SettleLines(db, c, co, co.items, LinkFor(db, co), db.duePayments)
      .(checkouts := db.checkouts[c := PaidRow(db, c, received, overpaid, now)],
        txns := if co.reference in db.txns then db.txns[co.reference := TxnCompleted] else db.txns,
        receipts := if c in db.receipts then db.receipts else db.receipts[c := Receipt(received)])
  }

  function FulfilOutcomeOf(db: Db, c: CheckoutId, received: int): FulfilOutcome
    requires c < |db.checkouts|
  {
    if db.checkouts[c].status == Paid then AlreadyPaidBefore
    else if !Covers(db, c, received) then Short
    else PaidNow
  }

  function UnderpaidTx(db: Db, c: CheckoutId, received: int, now: Time): Db
    requires c < |db.checkouts|
  {
    var co := db.checkouts[c];
    var noted := co.(receivedKobo := Some(received), needsReview := true);
    if CanTransitionCheckout(co.status, Underpaid) then
      db.(checkouts := db.checkouts[c := noted.(status := Underpaid, underpaidAt := Some(now))])
    else if co.status == Paid || (co.status == Underpaid && co.receivedKobo == Some(received)) then db
    else db.(checkouts := db.checkouts[c := noted])
  }

  function ExpireTx(db: Db, c: CheckoutId, now: Time): Db
    requires c < |db.checkouts|
  {
    var co := db.checkouts[c];
    if !CanTransitionCheckout(co.status, Expired) then db
    else db.(checkouts := db.checkouts[c := co.(status := Expired, expiredAt := Some(now))],
             txns := if co.reference in db.txns && db.txns[co.reference] == TxnPending then db.txns[co.reference := TxnFailed] else db.txns)
  }

  /** An admin clears a review flag (src/routes/admin.ts:262-273). */
  function ResolveTx(db: Db, c: CheckoutId): Db
    requires c < |db.checkouts|
  {
    db.(checkouts := db.checkouts[c := db.checkouts[c].(needsReview := false)])
  }

  // --------------------------------------------------------------- the methods

  /** Writes one line's payment and its credit. */
  method SettleLine(db: Database, c: CheckoutId, co: Checkout, item: Item, link: Option<Reference>)
    requires item.dueId < |db.dues| && db.dues[item.dueId].spaceId == co.spaceId && 0 < item.faceKobo && IsSafeInteger(item.faceKobo)
    modifies db`duePayments, db`ledger
    ensures db.Snapshot() == AddPayment(old(db.Snapshot()), LineFor(c, co, item, link))
  {
    var id := |db.duePayments|;
    var line := LineFor(c, co, item, link);
    var credit := Entry(DuePaymentCredit, Credit, item.faceKobo, Tag(co.spaceId, Some(item.dueId), Some(id), None));
    assert credit == PaymentEntry(db.dues, id, line);
    db.duePayments := db.duePayments + [line];
    var _ := AppendLedgerEntry(db, credit);
  }

  /** The next line of the basket, skipped or written. */
  lemma NextLine(db: Db, c: CheckoutId, co: Checkout, k: nat, link: Option<Reference>, seen: seq<DuePayment>)
    requires k < |co.items|
    ensures SettleLines(db, c, co, co.items[k..], link, seen) ==
      if AlreadyPaid(seen, co.userId, co.items[k].dueId) then SettleLines(db, c, co, co.items[k + 1..], link, seen)
      else SettleLines(AddPayment(db, LineFor(c, co, co.items[k], link)), c, co, co.items[k + 1..], None, seen)
  {
    assert co.items[k..][0] == co.items[k] && co.items[k..][1..] == co.items[k + 1..];
  }

  method SettleBasket(db: Database, c: CheckoutId, co: Checkout, link: Option<Reference>) returns (flagged: bool)
    requires CanSettle(db.dues, co)
    modifies db`duePayments, db`ledger
    ensures db.Snapshot() == SettleLines(old(db.Snapshot()), c, co, co.items, link, old(db.duePayments))
    ensures flagged <==> PaidElsewhere(old(db.Snapshot()), c, co)
  {
    ghost var was := db.Snapshot();
    var seen := db.duePayments;
    var txnToLink := link;
    flagged := false;
    for k := 0 to |co.items|
      invariant db.dues == was.dues
      invariant SettleLines(db.Snapshot(), c, co, co.items[k..], txnToLink, seen) == SettleLines(was, c, co, co.items, link, seen)
      invariant flagged <==> exists i, x :: 0 <= i < k && 0 <= x < |seen| && PaidByOther(seen[x], c, co, co.items[i])
    {
      var item := co.items[k];
      NextLine(db.Snapshot(), c, co, k, txnToLink, seen);
      if AlreadyPaid(seen, co.userId, item.dueId) {
        if exists x :: 0 <= x < |seen| && PaidByOther(seen[x], c, co, item) {
          flagged := true;
        }
      } else {
        SettleLine(db, c, co, item, txnToLink);
        txnToLink := None;
      }
    }
  }

  method FulfilCheckout(db: Database, c: CheckoutId, receivedKobo: int, overpaidKobo: int, chargeId: Option<nat>, now: Time)
    returns (outcome: FulfilOutcome)
    requires c < |db.checkouts| && CanSettle(db.dues, db.checkouts[c])
    modifies db
    ensures outcome == FulfilOutcomeOf(old(db.Snapshot()), c, receivedKobo)
    ensures db.Snapshot() == FulfilTx(old(db.Snapshot()), c, receivedKobo, overpaidKobo, chargeId, now)
  {
    var co := db.checkouts[c];
    if co.status == Paid {
      if chargeId.Some? && co.providerChargeId.Some? && chargeId != co.providerChargeId {
        db.checkouts := db.checkouts[c := co.(needsReview := true)];
      }
      return AlreadyPaidBefore;
    }
    if receivedKobo < co.totalKobo { return Short; }
    var excess := Excess(co, receivedKobo, overpaidKobo);
    var flagged := excess > 0 || co.status == Expired || co.status == Underpaid;
    var link := LinkFor(db.Snapshot(), co);
    var duplicate := SettleBasket(db, c, co, link);
    if co.reference in db.txns { db.txns := db.txns[co.reference := TxnCompleted]; }
    db.checkouts := db.checkouts[c := co.(status := Paid, paidAt := Some(now), receivedKobo := Some(receivedKobo),
                                          overpaidKobo := excess, needsReview := flagged || duplicate || co.needsReview)];
    if c !in db.receipts { db.receipts := db.receipts[c := Receipt(receivedKobo)]; }
    return PaidNow;
  }

  method MarkUnderpaid(db: Database, c: CheckoutId, receivedKobo: int, now: Time) returns (transitioned: bool)
    requires c < |db.checkouts|
    modifies db`checkouts
    ensures db.Snapshot() == UnderpaidTx(old(db.Snapshot()), c, receivedKobo, now)
    ensures transitioned <==> old(db.checkouts)[c].status == CheckoutPending
  {
    var co := db.checkouts[c];
    if !CanTransitionCheckout(co.status, Underpaid) {
      if co.status == Paid || (co.status == Underpaid && co.receivedKobo == Some(receivedKobo)) { return false; }
      db.checkouts := db.checkouts[c := co.(receivedKobo := Some(receivedKobo), needsReview := true)];
      return false;
    }
    db.checkouts := db.checkouts[c := co.(status := Underpaid, underpaidAt := Some(now), receivedKobo := Some(receivedKobo), needsReview := true)];
    return true;
  }

  method ExpireCheckout(db: Database, c: CheckoutId, now: Time) returns (changed: bool)
    requires c < |db.checkouts|
    modifies db`checkouts, db`txns
    ensures db.Snapshot() == ExpireTx(old(db.Snapshot()), c, now)
    ensures changed <==> old(db.checkouts)[c].status == CheckoutPending
  {
    var co := db.checkouts[c];
    if !CanTransitionCheckout(co.status, Expired) { return false; }
    db.checkouts := db.checkouts[c := co.(status := Expired, expiredAt := Some(now))];
    if co.reference in db.txns && db.txns[co.reference] == TxnPending {
      db.txns := db.txns[co.reference := TxnFailed];
    }
    return true;
  }

  /** A success report: fulfil, or record a short payment in a second transaction. */
  function SuccessEffect(db: Db, c: CheckoutId, received: int, overpaid: int, chargeId: Option<nat>, now: Time): Db
    requires c < |db.checkouts|
  {
    if FulfilOutcomeOf(db, c, received) == Short then UnderpaidTx(db, c, received, now)
    else FulfilTx(db, c, received, overpaid, chargeId, now)
  }

  method ApplySuccess(db: Database, c: CheckoutId, receivedKobo: int, overpaidKobo: int, chargeId: Option<nat>, now: Time)
    requires c < |db.checkouts| && CanSettle(db.dues, db.checkouts[c])
    modifies db
    ensures db.Snapshot() == SuccessEffect(old(db.Snapshot()), c, receivedKobo, overpaidKobo, chargeId, now)
  {
    var outcome := FulfilCheckout(db, c, receivedKobo, overpaidKobo, chargeId, now);
    if outcome == Short {
      var _ := MarkUnderpaid(db, c, receivedKobo, now);
    }
  }

  // ------------------------------------------------------------- manual credit

  /** What was looked up about the student to be credited. */
  datatype Payee = Payee(known: bool, member: bool)

  datatype CreditError = CreditDueNotFound | CreditUserNotFound | CreditNotAMember | CreditAlreadyPaid | DuplicateReference | CreditOutOfRange

  function CreditLine(db: Db, user: UserId, due: DueId, reference: Reference): DuePayment
    requires due < |db.dues| && CheckoutFee(db.dues[due].amount).Ok?
  {
    var face := db.dues[due].amount;
    var fee := CheckoutFee(face).value;
    DuePayment(user, due, None, Some(reference), face + fee, fee, face)
  }

  /** An admin records a payment that happened but never got recorded (src/routes/admin.ts:1252-1371). */
  function ManualCreditTx(db: Db, user: UserId, due: DueId, payee: Payee, reference: Reference): Result<Db, CreditError> {
    if due >= |db.dues| then Err(CreditDueNotFound)
    else if !payee.known then Err(CreditUserNotFound)
    else if !payee.member then Err(CreditNotAMember)
    else if AlreadyPaid(db.duePayments, user, due) then Err(CreditAlreadyPaid)
    else if CheckoutFee(db.dues[due].amount).Err? then Err(CreditOutOfRange)
    else if reference in db.txns then Err(DuplicateReference)
    else Ok(AddPayment(db.(txns := db.txns[reference := TxnCompleted]), CreditLine(db, user, due, reference)))
  }

  method ManuallyCredit(db: Database, user: UserId, due: DueId, payee: Payee, reference: Reference) returns (r: Result<(), CreditError>)
    requires due < |db.dues| ==> 0 < db.dues[due].amount
    modifies db
    ensures match ManualCreditTx(old(db.Snapshot()), user, due, payee, reference)
      case Err(e) => r == Err(e) && db.Snapshot() == old(db.Snapshot())
      case Ok(after) => r.Ok? && db.Snapshot() == after
  {
    if due >= |db.dues| { return Err(CreditDueNotFound); }
    if !payee.known { return Err(CreditUserNotFound); }
    if !payee.member { return Err(CreditNotAMember); }
    if AlreadyPaid(db.duePayments, user, due) { return Err(CreditAlreadyPaid); }
    var face := db.dues[due].amount;
    var fee := CheckoutFee(face);
    if fee.Err? { return Err(CreditOutOfRange); }
    if reference in db.txns { return Err(DuplicateReference); }
    db.txns := db.txns[reference := TxnCompleted];
    var id := |db.duePayments|;
    var line := DuePayment(user, due, None, Some(reference), face + fee.value, fee.value, face);
    var credit := Entry(ManualCredit, Credit, face, Tag(db.dues[due].spaceId, Some(due), Some(id), None));
    assert credit == PaymentEntry(db.dues, id, line);
    db.duePayments := db.duePayments + [line];
    var _ := AppendLedgerEntry(db, credit);
    return Ok(());
  }
}
