/** What creating, paying, underpaying and expiring a checkout write, column by column
    (src/services/checkout.service.ts, src/routes/admin.ts:1252-1371). */
module CheckoutOutcomes {
  import opened Wrappers
  import opened Money
  import opened Sorting
  import opened Sums
  import opened StateMachine
  import opened Tables
  import opened Books
  import opened Checkouts
  import opened Settlement
  import opened CheckoutFacts

  // ----------------------------------------------------------------- selection

  /** The tests of a selection of dues, numbered in the order they are made. */
  predicate FailsSelection(db: Db, req: CheckoutRequest, test: nat) {
    var e := req.eligibility;
    match test
    case 0 => var n := |set d: DueId | d in req.dueIds|; n == 0 || n > 20
    case 1 => !e.userKnown
    case 2 => exists d :: d in req.dueIds && d >= |db.dues|
    case 3 => exists d, x :: d in req.dueIds && x in req.dueIds && d < |db.dues| && x < |db.dues| && db.dues[d].spaceId != db.dues[x].spaceId
    case 4 => e.archived
    case 5 => !e.allActive
    case 6 => e.guest && !e.guestsAllowed
    case 7 => !e.guest && !e.member
    case 8 => e.foundPaid
    case 9 => !e.leadCanCollect
    case _ => false
  }

  function SelectionAnswer(test: nat): CheckoutError {
    match test
    case 0 => BadSelection case 1 => UserNotFound case 2 => CheckoutError.DueNotFound case 3 => MixedSpaces case 4 => SpaceArchived
    case 5 => DueNotPayable case 6 => GuestsNotAllowed case 7 => NotAMember case 8 => DueAlreadyPaid case _ => SpaceNotVerified
  }

  lemma {:induction false} SizeOfDistinct(ids: seq<DueId>)
    requires Distinct(ids)
    ensures |set d: DueId | d in ids| == |ids|
  {
    if ids != [] {
      var front, last := ids[..|ids| - 1], ids[|ids| - 1];
      SizeOfDistinct(front);
      assert ids == front + [last] && last !in front;
      assert (set d: DueId | d in ids) == (set d: DueId | d in front) + {last};
    }
  }

  /** The basket, by what it is made of. */
  lemma BasketTests(db: Db, req: CheckoutRequest)
    ensures var ids := Dedupe(req.dueIds);
      && (FailsSelection(db, req, 0) <==> |ids| == 0 || |ids| > 20)
      && (FailsSelection(db, req, 2) <==> !Known(db.dues, ids))
      && (Known(db.dues, ids) ==>
           (FailsSelection(db, req, 3) <==> exists i :: 0 <= i < |ids| && db.dues[ids[i]].spaceId != db.dues[ids[0]].spaceId))
  {
    var ids := Dedupe(req.dueIds);
    DedupeCorrect(req.dueIds);
    SizeOfDistinct(ids);
    assert (set d: DueId | d in req.dueIds) == (set d: DueId | d in ids);
    if !Known(db.dues, ids) {
      var i :| 0 <= i < |ids| && ids[i] >= |db.dues|;
      assert ids[i] in req.dueIds;
    } else {
      if i :| 0 <= i < |ids| && db.dues[ids[i]].spaceId != db.dues[ids[0]].spaceId {
        assert ids[i] in req.dueIds && ids[0] in req.dueIds;
      }
      forall d | d in req.dueIds ensures d < |db.dues| && exists i :: 0 <= i < |ids| && ids[i] == d {
        assert d in ids;
      }
    }
  }

  /** A selection is refused with the answer of the first test it fails, and then nothing is written. */
  lemma SelectionRefused(db: Db, req: CheckoutRequest, test: nat)
    requires FailsSelection(db, req, test) && forall k: nat :: k < test ==> !FailsSelection(db, req, k)
    ensures CreateTx(db, req) == Err(SelectionAnswer(test))
  {
    BasketTests(db, req);
    if test > 0 { assert !FailsSelection(db, req, 0); }
    if test > 1 { assert !FailsSelection(db, req, 1); }
    if test > 2 { assert !FailsSelection(db, req, 2); }
    if test > 3 { assert !FailsSelection(db, req, 3); }
    if test > 4 { assert !FailsSelection(db, req, 4); }
    if test > 5 { assert !FailsSelection(db, req, 5); }
    if test > 6 { assert !FailsSelection(db, req, 6); }
    if test > 7 { assert !FailsSelection(db, req, 7); }
    if test > 8 { assert !FailsSelection(db, req, 8); }
  }

  /** It goes on to the open checkouts exactly if it fails none. */
  lemma SelectionPassesExactly(db: Db, req: CheckoutRequest)
    ensures SelectionError(db, req).None? <==> forall test: nat :: !FailsSelection(db, req, test)
  {
    BasketTests(db, req);
    if forall test: nat :: !FailsSelection(db, req, test) {
      assert !FailsSelection(db, req, 0) && !FailsSelection(db, req, 1) && !FailsSelection(db, req, 2) && !FailsSelection(db, req, 3);
      assert !FailsSelection(db, req, 4) && !FailsSelection(db, req, 5) && !FailsSelection(db, req, 6) && !FailsSelection(db, req, 7);
      assert !FailsSelection(db, req, 8) && !FailsSelection(db, req, 9);
    }
  }

  // ------------------------------------------------------------------- creation

  /** A checkout as it is created: pending, unpaid, nothing noted. */
  ghost predicate IsFresh(co: Checkout) {
    && co.status == CheckoutPending && co.receivedKobo.None? && co.overpaidKobo == 0 && co.providerChargeId.None?
    && co.expiredAt.None? && co.underpaidAt.None? && co.paidAt.None? && !co.needsReview
  }

  /** Its price: each due at its face, one fee of two percent and twenty naira on them all, shared out by
      face and largest remainder. */
  ghost predicate PricedAt(dues: seq<Due>, co: Checkout) {
    var ids := DueIds(co.items);
    && Known(dues, ids)
    && (forall i :: 0 <= i < |co.items| ==> co.items[i].faceKobo == dues[ids[i]].amount && dues[ids[i]].spaceId == co.spaceId)
    && co.faceKobo == Sum(Amounts(dues, ids)) && IsHalfUp(co.faceKobo * 2, 100, co.feeKobo - 2_000) && 0 <= co.feeKobo
    && LargestRemainder(co.feeKobo, Amounts(dues, ids), Fees(co.items))
    && co.totalKobo == co.faceKobo + co.feeKobo
  }

  /** A new checkout is one more row, for each of the requested dues once, with a pending transaction. */
  lemma NewCheckoutWrites(db: Db, req: CheckoutRequest)
    requires CreateTx(db, req).Ok? && !CreateTx(db, req).value.reused && forall d: DueId :: d < |db.dues| ==> DueOk(db.dues[d])
    ensures var r, n := CreateTx(db, req).value, |db.checkouts|;
      && r.id == n && |r.db.checkouts| == n + 1
      && var co := r.db.checkouts[n];
         && r.db == db.(checkouts := db.checkouts + [co], txns := db.txns[req.reference := TxnPending])
         && co.reference == req.reference && co.userId == req.userId && co.expiresAt == req.now + req.expiryMs
         && IsFresh(co) && PricedAt(db.dues, co)
         && DueIds(co.items) == Dedupe(req.dueIds) && Distinct(DueIds(co.items))
         && forall d: DueId :: d in DueIds(co.items) <==> d in req.dueIds
  {
    OpenedIsOneMore(db, req);
    var ids := Dedupe(req.dueIds);
    DedupeCorrect(req.dueIds);
    NewRowIsPriced(db, req, ids);
  }

  lemma NewRowIsPriced(db: Db, req: CheckoutRequest, ids: seq<DueId>)
    requires SelectionError(db, req).None? && ids == Dedupe(req.dueIds) && CheckoutFee(Sum(Amounts(db.dues, ids))).Ok?
    requires forall d: DueId :: d < |db.dues| ==> DueOk(db.dues[d])
    ensures var after := Opened(db, req, ids);
      && |after.checkouts| == |db.checkouts| + 1
      && var co := after.checkouts[|db.checkouts|];
         && after == db.(checkouts := db.checkouts + [co], txns := db.txns[req.reference := TxnPending])
         && co.reference == req.reference && co.userId == req.userId && co.expiresAt == req.now + req.expiryMs
         && IsFresh(co) && DueIds(co.items) == ids && PricedAt(db.dues, co)
  {
    FeeNotNegative(Sum(Amounts(db.dues, ids)));
    PricedOn(db.dues, req, ids, CheckoutFee(Sum(Amounts(db.dues, ids))).value);
  }

  lemma PricedOn(dues: seq<Due>, req: CheckoutRequest, ids: seq<DueId>, fee: nat)
    requires ids != [] && Known(dues, ids) && CheckoutFee(Sum(Amounts(dues, ids))) == Ok(fee)
    requires forall d: DueId :: d < |dues| ==> DueOk(dues[d])
    requires forall i :: 0 <= i < |ids| ==> dues[ids[i]].spaceId == dues[ids[0]].spaceId
    ensures var co := NewCheckout(req, dues[ids[0]].spaceId, ids, Amounts(dues, ids), fee);
      && IsFresh(co) && DueIds(co.items) == ids && PricedAt(dues, co)
  {
    var amounts := Amounts(dues, ids);
    AmountsAddUp(dues, ids);
    CheckoutFeeMeans(Sum(amounts));
    ApportionedCorrect(fee, amounts);
    var co := NewCheckout(req, dues[ids[0]].spaceId, ids, amounts, fee);
    assert DueIds(co.items) == ids && Fees(co.items) == Apportioned(fee, amounts);
  }

  // ------------------------------------------------------------------ short money

  /** The tables with a short payment noted: it closes a pending checkout as underpaid, is noted on an
      expired one and, unless it is the amount already noted, on an underpaid one, and leaves a paid one
      alone. */
  function ShortNoted(db: Db, c: CheckoutId, received: int, now: Time): Db
    requires c < |db.checkouts|
  {
    var co := db.checkouts[c];
    match co.status
    case Paid => db
    case CheckoutPending =>
      db.(checkouts := db.checkouts[c := co.(status := Underpaid, underpaidAt := Some(now), receivedKobo := Some(received), needsReview := true)])
    case Expired => db.(checkouts := db.checkouts[c := co.(receivedKobo := Some(received), needsReview := true)])
    case Underpaid =>
      if co.receivedKobo == Some(received) then db
      else db.(checkouts := db.checkouts[c := co.(receivedKobo := Some(received), needsReview := true)])
  }

  lemma ShortPaymentWrites(db: Db, c: CheckoutId, received: int, now: Time)
    requires c < |db.checkouts|
    ensures UnderpaidTx(db, c, received, now) == ShortNoted(db, c, received, now)
  {
  }

  /** The tables with a checkout closed unpaid: a pending one and its transaction, and no other. */
  function ClosedUnpaid(db: Db, c: CheckoutId, now: Time): Db
    requires c < |db.checkouts|
  {
    var co := db.checkouts[c];
    if co.status != CheckoutPending then db
    else db.(checkouts := db.checkouts[c := co.(status := Expired, expiredAt := Some(now))], txns := db.txns[co.reference := TxnFailed])
  }

  lemma ExpiryWrites(db: Db, c: CheckoutId, now: Time)
    requires CheckoutsOk(db) && c < |db.checkouts|
    ensures ExpireTx(db, c, now) == ClosedUnpaid(db, c, now)
  {
    assert StatusOk(db, c);
  }

  /** A checkout closed short or as expired is never handed out again, and stands in no new request's way. */
  lemma ClosedIsNotHandedOut(db: Db, c: CheckoutId, received: int, now: Time, req: CheckoutRequest)
    requires c < |db.checkouts| && db.checkouts[c].status == CheckoutPending
    ensures forall r :: CreateTx(UnderpaidTx(db, c, received, now), req) == Ok(r) ==> r.id != c
    ensures forall r :: CreateTx(ExpireTx(db, c, now), req) == Ok(r) ==> r.id != c
    ensures c !in OpenOverlaps(UnderpaidTx(db, c, received, now).checkouts, req.userId, Dedupe(req.dueIds), req.now)
    ensures c !in OpenOverlaps(ExpireTx(db, c, now).checkouts, req.userId, Dedupe(req.dueIds), req.now)
  {
    HandedOutIsOpen(UnderpaidTx(db, c, received, now), req, c);
    HandedOutIsOpen(ExpireTx(db, c, now), req, c);
  }

  lemma HandedOutIsOpen(db: Db, req: CheckoutRequest, c: CheckoutId)
    requires c < |db.checkouts| && db.checkouts[c].status != CheckoutPending
    ensures forall r :: CreateTx(db, req) == Ok(r) ==> r.id != c
  {
    if CreateTx(db, req).Ok? && CreateTx(db, req).value.reused {
      var open := OpenOverlaps(db.checkouts, req.userId, Dedupe(req.dueIds), req.now);
      assert FindSame(db.checkouts, open, DueSetKey(Dedupe(req.dueIds))).value in open;
    }
  }

  // -------------------------------------------------------------------- payment

  /** Somebody else's checkout, or an admin, settled one of the basket's dues for the student. */
  ghost predicate SettledElsewhere(db: Db, c: CheckoutId)
    requires c < |db.checkouts|
  {
    var co := db.checkouts[c];
    exists i, k :: 0 <= i < |co.items| && 0 <= k < |db.duePayments| && db.duePayments[k].userId == co.userId
                   && db.duePayments[k].dueId == co.items[i].dueId && db.duePayments[k].checkoutId != Some(c)
  }

  lemma ElsewhereIs(db: Db, c: CheckoutId)
    requires c < |db.checkouts|
    ensures PaidElsewhere(db, c, db.checkouts[c]) <==> SettledElsewhere(db, c)
  {
    var co := db.checkouts[c];
    if SettledElsewhere(db, c) {
      var i, k :| 0 <= i < |co.items| && 0 <= k < |db.duePayments| && db.duePayments[k].userId == co.userId
                  && db.duePayments[k].dueId == co.items[i].dueId && db.duePayments[k].checkoutId != Some(c);
      assert PaidByOther(db.duePayments[k], c, co, co.items[i]);
    }
  }

  /** The tables after a report on a checkout that is paid already: at most a flag, and only for a charge
      known to be another. */
  function SeenPaid(db: Db, c: CheckoutId, chargeId: Option<nat>): Db
    requires c < |db.checkouts|
  {
    var co := db.checkouts[c];
    if chargeId.Some? && co.providerChargeId.Some? && chargeId.value != co.providerChargeId.value
    then db.(checkouts := db.checkouts[c := co.(needsReview := true)])
    else db
  }

  lemma SeenPaidWrites(db: Db, c: CheckoutId, received: int, overpaid: int, chargeId: Option<nat>, now: Time)
    requires c < |db.checkouts| && db.checkouts[c].status == Paid
    ensures FulfilTx(db, c, received, overpaid, chargeId, now) == SeenPaid(db, c, chargeId)
    ensures FulfilOutcomeOf(db, c, received) == AlreadyPaidBefore
  {
  }

  lemma ShortReportWrites(db: Db, c: CheckoutId, received: int, overpaid: int, chargeId: Option<nat>, now: Time)
    requires c < |db.checkouts| && db.checkouts[c].status != Paid && received < db.checkouts[c].totalKobo
    ensures FulfilTx(db, c, received, overpaid, chargeId, now) == db && FulfilOutcomeOf(db, c, received) == Short
    ensures SuccessEffect(db, c, received, overpaid, chargeId, now) == ShortNoted(db, c, received, now)
  {
    ShortPaymentWrites(db, c, received, now);
  }

  /** The checkout's transaction is there and no payment carries it yet. */
  ghost predicate Linkable(db: Db, c: CheckoutId)
    requires c < |db.checkouts|
  {
    db.checkouts[c].reference in db.txns && forall k :: 0 <= k < |db.duePayments| ==> db.duePayments[k].txnId != Some(db.checkouts[c].reference)
  }

  /** The student has not paid for this due. */
  ghost predicate Unsettled(db: Db, user: UserId, due: DueId) {
    forall k :: 0 <= k < |db.duePayments| ==> !(db.duePayments[k].userId == user && db.duePayments[k].dueId == due)
  }

  /** Row and entry of one line: its face and fee share as paid, its face credited to the space under its
      due, the transaction on the first line written only. */
  ghost predicate LineWritten(db: Db, after: Db, c: CheckoutId, it: Item, k: nat)
    requires c < |db.checkouts| && k < |after.duePayments| && |db.duePayments| <= k && |db.ledger| + k - |db.duePayments| < |after.ledger|
  {
    var co, n := db.checkouts[c], |db.duePayments|;
    && after.duePayments[k] == DuePayment(co.userId, it.dueId, Some(c), if k == n && Linkable(db, c) then Some(co.reference) else None,
                                          it.faceKobo + it.feeKobo, it.feeKobo, it.faceKobo)
    && after.ledger[|db.ledger| + k - n] == Entry(DuePaymentCredit, Credit, it.faceKobo, Tag(co.spaceId, Some(it.dueId), Some(k), None))
  }

  /** The payment is one of a line the student had not paid, */
  ghost predicate IsUnsettledLine(db: Db, after: Db, c: CheckoutId, k: nat)
    requires c < |db.checkouts| && k < |after.duePayments| && |db.duePayments| <= k && |db.ledger| + k - |db.duePayments| < |after.ledger|
  {
    var co := db.checkouts[c];
    exists i :: 0 <= i < |co.items| && Unsettled(db, co.userId, co.items[i].dueId) && LineWritten(db, after, c, co.items[i], k)
  }

  /** and the line has its payment. */
  ghost predicate HasItsPayment(db: Db, after: Db, c: CheckoutId, it: Item)
    requires c < |db.checkouts| && |after.ledger| - |db.ledger| == |after.duePayments| - |db.duePayments|
  {
    exists k: nat :: |db.duePayments| <= k < |after.duePayments| && LineWritten(db, after, c, it, k)
  }

  lemma OneLineWritten(db: Db, after: Db, c: CheckoutId, x: nat)
    requires c < |db.checkouts| && BasketOk(db.dues, db.checkouts[c]) && x < |NewLines(db, c)|
    requires after.duePayments == db.duePayments + NewLines(db, c)
    requires after.ledger == db.ledger + Credits(db.dues, |db.duePayments|, NewLines(db, c))
    ensures var it := Unpaid(db.checkouts[c].items, db.checkouts[c].userId, db.duePayments)[x];
      it in db.checkouts[c].items && Unsettled(db, db.checkouts[c].userId, it.dueId) && LineWritten(db, after, c, it, |db.duePayments| + x)
  {
    var co := db.checkouts[c];
    var it := Unpaid(co.items, co.userId, db.duePayments)[x];
    UnpaidMembers(co.items, co.userId, db.duePayments, it);
    assert it in Unpaid(co.items, co.userId, db.duePayments);
  }

  lemma WrittenIsUnsettled(db: Db, after: Db, c: CheckoutId, x: nat)
    requires c < |db.checkouts| && BasketOk(db.dues, db.checkouts[c]) && x < |NewLines(db, c)|
    requires after.duePayments == db.duePayments + NewLines(db, c)
    requires after.ledger == db.ledger + Credits(db.dues, |db.duePayments|, NewLines(db, c))
    ensures IsUnsettledLine(db, after, c, |db.duePayments| + x)
  {
    var co := db.checkouts[c];
    OneLineWritten(db, after, c, x);
    var i :| 0 <= i < |co.items| && co.items[i] == Unpaid(co.items, co.userId, db.duePayments)[x];
  }

  lemma UnsettledIsWritten(db: Db, after: Db, c: CheckoutId, it: Item)
    requires c < |db.checkouts| && BasketOk(db.dues, db.checkouts[c])
    requires it in db.checkouts[c].items && Unsettled(db, db.checkouts[c].userId, it.dueId)
    requires after.duePayments == db.duePayments + NewLines(db, c)
    requires after.ledger == db.ledger + Credits(db.dues, |db.duePayments|, NewLines(db, c))
    ensures HasItsPayment(db, after, c, it)
  {
    var co := db.checkouts[c];
    var unpaid := Unpaid(co.items, co.userId, db.duePayments);
    UnpaidMembers(co.items, co.userId, db.duePayments, it);
    var x :| 0 <= x < |unpaid| && unpaid[x] == it;
    OneLineWritten(db, after, c, x);
  }

  /** Payments and credits were written for the lines nobody had paid, one each, and nothing else was. */
  ghost predicate LinesSettled(db: Db, after: Db, c: CheckoutId)
    requires c < |db.checkouts|
  {
    var co, n, m := db.checkouts[c], |db.duePayments|, |db.ledger|;
    && n <= |after.duePayments| && m <= |after.ledger| && |after.ledger| - m == |after.duePayments| - n
    && after.duePayments[..n] == db.duePayments && after.ledger[..m] == db.ledger
    && (forall k: nat {:trigger IsUnsettledLine(db, after, c, k)} :: n <= k < |after.duePayments| ==> IsUnsettledLine(db, after, c, k))
    && (forall i {:trigger HasItsPayment(db, after, c, co.items[i])} :: 0 <= i < |co.items| && Unsettled(db, co.userId, co.items[i].dueId) ==>
          HasItsPayment(db, after, c, co.items[i]))
  }

  lemma NewLinesSettle(db: Db, after: Db, c: CheckoutId)
    requires c < |db.checkouts| && BasketOk(db.dues, db.checkouts[c])
    requires after.duePayments == db.duePayments + NewLines(db, c)
    requires after.ledger == db.ledger + Credits(db.dues, |db.duePayments|, NewLines(db, c))
    ensures LinesSettled(db, after, c)
  {
    var co, n := db.checkouts[c], |db.duePayments|;
    forall k: nat {:trigger IsUnsettledLine(db, after, c, k)} | n <= k < |after.duePayments| ensures IsUnsettledLine(db, after, c, k) {
      WrittenIsUnsettled(db, after, c, k - n);
    }
    forall i | 0 <= i < |co.items| && Unsettled(db, co.userId, co.items[i].dueId) ensures HasItsPayment(db, after, c, co.items[i]) {
      UnsettledIsWritten(db, after, c, co.items[i]);
    }
  }

  /** The tables after a covering report: the lines nobody had paid with their credits; the row with what
      arrived, what of it was too much, and a flag if anything about it needs explaining; the transaction;
      the receipt; and nothing else. */
  ghost predicate PaidBy(db: Db, after: Db, c: CheckoutId, received: int, overpaid: int, now: Time)
    requires c < |db.checkouts|
  {
    var co := db.checkouts[c];
    var excess := if overpaid > received - co.totalKobo then overpaid else received - co.totalKobo;
    && LinesSettled(db, after, c)
    && after == db.(duePayments := after.duePayments, ledger := after.ledger,
                    checkouts := db.checkouts[c := co.(status := Paid, paidAt := Some(now), receivedKobo := Some(received), overpaidKobo := excess,
                      needsReview := co.needsReview || excess > 0 || co.status in {Expired, Underpaid} || SettledElsewhere(db, c))],
                    txns := db.txns[co.reference := TxnCompleted],
                    receipts := db.receipts[c := Receipt(received)])
  }

  lemma CoveringReportWrites(db: Db, c: CheckoutId, received: int, overpaid: int, chargeId: Option<nat>, now: Time)
    requires Sound(db) && CheckoutsOk(db) && c < |db.checkouts| && db.checkouts[c].status != Paid && received >= db.checkouts[c].totalKobo
    ensures PaidBy(db, FulfilTx(db, c, received, overpaid, chargeId, now), c, received, overpaid, now)
    ensures FulfilOutcomeOf(db, c, received) == PaidNow
  {
    FulfilInFull(db, c, received, overpaid, chargeId, now);
    assert BasketOk(db.dues, db.checkouts[c]);
    NewLinesSettle(db, FulfilTx(db, c, received, overpaid, chargeId, now), c);
    ElsewhereIs(db, c);
  }

  /** The payments follow the order of the basket. */
  lemma {:induction false} UnpaidKeepsOrder(items: seq<Item>, user: UserId, seen: seq<DuePayment>, x: nat, y: nat, i: nat, j: nat)
    requires forall a, b :: 0 <= a < b < |items| ==> items[a].dueId != items[b].dueId
    requires x < y < |Unpaid(items, user, seen)| && i < |items| && j < |items|
    requires Unpaid(items, user, seen)[x] == items[i] && Unpaid(items, user, seen)[y] == items[j]
    ensures i < j
    decreases |items|
  {
    var rest := Unpaid(items[1..], user, seen);
    forall it | it in rest ensures it != items[0] { UnpaidMembers(items[1..], user, seen, it); }
    var skip := if AlreadyPaid(seen, user, items[0].dueId) then 0 else 1;
    assert rest[y - skip] == items[j] && rest[y - skip] in rest;
    if skip <= x {
      assert rest[x - skip] == items[i] && rest[x - skip] in rest;
      UnpaidKeepsOrder(items[1..], user, seen, x - skip, y - skip, i - 1, j - 1);
    }
  }

  lemma LinesFollowTheBasket(db: Db, c: CheckoutId, received: int, overpaid: int, chargeId: Option<nat>, now: Time, k: nat, k': nat, i: nat, j: nat)
    requires Sound(db) && CheckoutsOk(db) && c < |db.checkouts| && db.checkouts[c].status != Paid && received >= db.checkouts[c].totalKobo
    requires i < |db.checkouts[c].items| && j < |db.checkouts[c].items|
    requires var dps := FulfilTx(db, c, received, overpaid, chargeId, now).duePayments;
      && |db.duePayments| <= k < k' < |dps| && dps[k].dueId == db.checkouts[c].items[i].dueId && dps[k'].dueId == db.checkouts[c].items[j].dueId
    ensures i < j
  {
    FulfilInFull(db, c, received, overpaid, chargeId, now);
    assert BasketOk(db.dues, db.checkouts[c]);
    AddedInOrder(db, c, FulfilTx(db, c, received, overpaid, chargeId, now).duePayments, k, k', i, j);
  }

  lemma AddedInOrder(db: Db, c: CheckoutId, dps: seq<DuePayment>, k: nat, k': nat, i: nat, j: nat)
    requires c < |db.checkouts| && dps == db.duePayments + NewLines(db, c) && |db.duePayments| <= k < k' < |dps|
    requires forall a, b :: 0 <= a < b < |db.checkouts[c].items| ==> db.checkouts[c].items[a].dueId != db.checkouts[c].items[b].dueId
    requires i < |db.checkouts[c].items| && j < |db.checkouts[c].items|
    requires dps[k].dueId == db.checkouts[c].items[i].dueId && dps[k'].dueId == db.checkouts[c].items[j].dueId
    ensures i < j
  {
    var co, n := db.checkouts[c], |db.duePayments|;
    SameLine(co, db.duePayments, k - n, i);
    SameLine(co, db.duePayments, k' - n, j);
    UnpaidKeepsOrder(co.items, co.userId, db.duePayments, k - n, k' - n, i, j);
  }

  lemma SameLine(co: Checkout, seen: seq<DuePayment>, x: nat, i: nat)
    requires forall a, b :: 0 <= a < b < |co.items| ==> co.items[a].dueId != co.items[b].dueId
    requires x < |Unpaid(co.items, co.userId, seen)| && i < |co.items| && Unpaid(co.items, co.userId, seen)[x].dueId == co.items[i].dueId
    ensures Unpaid(co.items, co.userId, seen)[x] == co.items[i]
  {
    UnpaidMembers(co.items, co.userId, seen, Unpaid(co.items, co.userId, seen)[x]);
    var a :| 0 <= a < |co.items| && co.items[a] == Unpaid(co.items, co.userId, seen)[x];
    assert a == i || a < i || i < a;
  }

  // -------------------------------------------------------------- manual credit

  predicate FailsCredit(db: Db, user: UserId, due: DueId, payee: Payee, reference: Reference, test: nat) {
    match test
    case 0 => due >= |db.dues|
    case 1 => !payee.known
    case 2 => !payee.member
    case 3 => exists k :: 0 <= k < |db.duePayments| && db.duePayments[k].userId == user && db.duePayments[k].dueId == due
    case 4 => due < |db.dues| && db.dues[due].amount > 9_007_199_254_740_991
    case 5 => reference in db.txns
    case _ => false
  }

  function CreditAnswer(test: nat): CreditError {
    match test
    case 0 => CreditDueNotFound case 1 => CreditUserNotFound case 2 => CreditNotAMember case 3 => CreditAlreadyPaid
    case 4 => CreditOutOfRange case _ => DuplicateReference
  }

  /** A manual credit is refused with the answer of the first test it fails, */
  lemma CreditRefused(db: Db, user: UserId, due: DueId, payee: Payee, reference: Reference, test: nat)
    requires FailsCredit(db, user, due, payee, reference, test)
    requires forall k: nat :: k < test ==> !FailsCredit(db, user, due, payee, reference, k)
    ensures ManualCreditTx(db, user, due, payee, reference) == Err(CreditAnswer(test))
  {
    if test > 0 { assert !FailsCredit(db, user, due, payee, reference, 0); }
    if test > 1 { assert !FailsCredit(db, user, due, payee, reference, 1); }
    if test > 2 { assert !FailsCredit(db, user, due, payee, reference, 2); }
    if test > 3 { assert !FailsCredit(db, user, due, payee, reference, 3); }
    if test > 4 { assert !FailsCredit(db, user, due, payee, reference, 4); }
  }

  lemma CreditPermitted(db: Db, user: UserId, due: DueId, payee: Payee, reference: Reference)
    requires forall k: nat :: !FailsCredit(db, user, due, payee, reference, k)
    ensures due < |db.dues| && payee.known && payee.member && !AlreadyPaid(db.duePayments, user, due) && reference !in db.txns
    ensures CheckoutFee(db.dues[due].amount).Ok?
  {
    assert !FailsCredit(db, user, due, payee, reference, 0) && !FailsCredit(db, user, due, payee, reference, 1);
    assert !FailsCredit(db, user, due, payee, reference, 2) && !FailsCredit(db, user, due, payee, reference, 3);
    assert !FailsCredit(db, user, due, payee, reference, 4) && !FailsCredit(db, user, due, payee, reference, 5);
  }

  /** and if it fails none it writes one completed transaction, one payment and one credit of the due's face
      to its space, with the fee a checkout of that due would charge. */
  lemma CreditWrites(db: Db, user: UserId, due: DueId, payee: Payee, reference: Reference)
    requires Sound(db) && forall k: nat :: !FailsCredit(db, user, due, payee, reference, k)
    ensures due < |db.dues| && ManualCreditTx(db, user, due, payee, reference).Ok?
    ensures var after, n, face := ManualCreditTx(db, user, due, payee, reference).value, |db.duePayments|, db.dues[due].amount;
      && |after.duePayments| == n + 1 && IsHalfUp(face * 2, 100, after.duePayments[n].duevyFee - 2_000)
      && var fee := after.duePayments[n].duevyFee;
         after == db.(txns := db.txns[reference := TxnCompleted],
                      duePayments := db.duePayments + [DuePayment(user, due, None, Some(reference), face + fee, fee, face)],
                      ledger := db.ledger + [Entry(ManualCredit, Credit, face, Tag(db.dues[due].spaceId, Some(due), Some(n), None))])
  {
    CreditPermitted(db, user, due, payee, reference);
    CreditAppends(db, user, due, reference);
    DueIsPositive(db, due);
    CheckoutFeeMeans(db.dues[due].amount);
  }

  lemma DueIsPositive(db: Db, due: DueId)
    requires RowsOk(db) && due < |db.dues|
    ensures 0 < db.dues[due].amount && IsSafeInteger(db.dues[due].amount)
  {
    assert DueOk(db.dues[due]);
  }

  lemma CreditAppends(db: Db, user: UserId, due: DueId, reference: Reference)
    requires Sound(db) && due < |db.dues| && CheckoutFee(db.dues[due].amount).Ok? && !AlreadyPaid(db.duePayments, user, due)
    ensures var line := CreditLine(db, user, due, reference);
      AddPayment(db.(txns := db.txns[reference := TxnCompleted]), line)
      == db.(txns := db.txns[reference := TxnCompleted], duePayments := db.duePayments + [line],
             ledger := db.ledger + [PaymentEntry(db.dues, |db.duePayments|, line)])
  {
    DueIsPositive(db, due);
    FeeNotNegative(db.dues[due].amount);
    var noted := db.(txns := db.txns[reference := TxnCompleted]);
    SameBooksSound(db, noted);
    AddPaymentKeepsSound(noted, CreditLine(db, user, due, reference));
  }
}
