/** What every reachable checkout keeps, transaction by transaction. */
module CheckoutFacts {
  import opened Wrappers
  import opened Money
  import opened StateMachine
  import opened Tables
  import opened Books
  import opened Checkouts
  import opened Settlement

  // -------------------------------------------------------------- the invariant

  /** How far the student's own transaction is, for each state of its checkout. */
  function TxnFor(status: CheckoutStatus): TxnStatus {
    match status
    case CheckoutPending => TxnPending
    case Underpaid => TxnPending
    case Expired => TxnFailed
    case Paid => TxnCompleted
  }

  ghost predicate StatusOk(db: Db, c: CheckoutId)
    requires c < |db.checkouts|
  {
    var co := db.checkouts[c];
    && (co.status == Paid <==> c in db.receipts)
    && (co.status == Paid ==> co.receivedKobo == Some(db.receipts[c].totalKobo) && db.receipts[c].totalKobo >= co.totalKobo)
    && co.reference in db.txns
    && db.txns[co.reference] == TxnFor(co.status)
    && (co.status != Paid ==> (co.expiredAt.Some? <==> co.status == Expired) && (co.underpaidAt.Some? <==> co.status == Underpaid))
  }

  /** A paid basket has every one of its dues paid for its student. */
  ghost predicate LinesPaid(db: Db, c: CheckoutId)
    requires c < |db.checkouts|
  {
    var co := db.checkouts[c];
    co.status == Paid ==> forall k :: 0 <= k < |co.items| ==> AlreadyPaid(db.duePayments, co.userId, co.items[k].dueId)
  }

  /** A payment that names a checkout is one of the lines of that paid checkout. */
  ghost predicate OriginOk(db: Db, dp: DuePayment) {
    dp.checkoutId.Some? ==>
      && dp.checkoutId.value < |db.checkouts|
      && db.checkouts[dp.checkoutId.value].status == Paid
      && IsLine(dp, dp.checkoutId.value, db.checkouts[dp.checkoutId.value])
  }

  ghost predicate IsLine(dp: DuePayment, c: CheckoutId, co: Checkout) {
    exists k :: 0 <= k < |co.items| && dp == LineFor(c, co, co.items[k], dp.txnId)
  }

  /** Each transaction row is linked to at most one payment. */
  ghost predicate LinksUnique(dps: seq<DuePayment>) {
    forall i, j {:trigger SameLink(dps[i], dps[j])} :: 0 <= i < j < |dps| ==> !SameLink(dps[i], dps[j])
  }

  predicate SameLink(a: DuePayment, b: DuePayment) { a.txnId.Some? && a.txnId == b.txnId }

  ghost predicate LinksKnown(db: Db) {
    forall i :: 0 <= i < |db.duePayments| && db.duePayments[i].txnId.Some? ==> db.duePayments[i].txnId.value in db.txns
  }

  ghost predicate ReferencesDistinct(checkouts: seq<Checkout>) {
    forall a, b :: 0 <= a < b < |checkouts| ==> checkouts[a].reference != checkouts[b].reference
  }

  ghost predicate Baskets(db: Db) {
    forall c: CheckoutId {:trigger BasketOk(db.dues, db.checkouts[c])} :: c < |db.checkouts| ==> BasketOk(db.dues, db.checkouts[c])
  }

  ghost predicate Statuses(db: Db) {
    && (forall c: CheckoutId {:trigger StatusOk(db, c)} :: c < |db.checkouts| ==> StatusOk(db, c))
    && (forall c: CheckoutId :: c in db.receipts ==> c < |db.checkouts|)
    && ReferencesDistinct(db.checkouts)
  }

  ghost predicate Payments(db: Db) {
    && (forall c: CheckoutId {:trigger LinesPaid(db, c)} :: c < |db.checkouts| ==> LinesPaid(db, c))
    && (forall i: DuePaymentId {:trigger OriginOk(db, db.duePayments[i])} :: i < |db.duePayments| ==> OriginOk(db, db.duePayments[i]))
    && LinksUnique(db.duePayments) && LinksKnown(db)
  }

  ghost predicate CheckoutsOk(db: Db) { Baskets(db) && Statuses(db) && Payments(db) }

  // --------------------------------------------------------- what never matters

  /** Transactions that leave the checkout tables alone keep their facts. */
  lemma UntouchedKeepsCheckouts(db: Db, db': Db)
    requires CheckoutsOk(db)
    requires db'.checkouts == db.checkouts && db'.duePayments == db.duePayments && db'.txns == db.txns && db'.receipts == db.receipts
    requires SameSpaces(db.dues, db'.dues)
    ensures CheckoutsOk(db')
  {
    forall c: CheckoutId | c < |db'.checkouts| ensures BasketOk(db'.dues, db'.checkouts[c]) && StatusOk(db', c) && LinesPaid(db', c) {
      assert BasketOk(db.dues, db.checkouts[c]) && StatusOk(db, c) && LinesPaid(db, c);
    }
    forall i: DuePaymentId | i < |db'.duePayments| ensures OriginOk(db', db'.duePayments[i]) {
      assert OriginOk(db, db.duePayments[i]);
    }
  }

  predicate SameBasket(o: Checkout, co: Checkout) {
    && co.reference == o.reference && co.userId == o.userId && co.spaceId == o.spaceId
    && co.faceKobo == o.faceKobo && co.feeKobo == o.feeKobo && co.totalKobo == o.totalKobo
    && co.items == o.items && co.dueSetKey == o.dueSetKey
  }

  /** A write to one row that neither pays it nor changes its basket keeps everything. */
  lemma RowWriteKeepsCheckouts(db: Db, db': Db, c: CheckoutId, co: Checkout)
    requires CheckoutsOk(db) && c < |db.checkouts| && SameBasket(db.checkouts[c], co)
    requires db' == db.(checkouts := db.checkouts[c := co], txns := db'.txns)
    requires db'.txns == db.txns[co.reference := TxnFor(co.status)]
    requires co.status == Paid <==> db.checkouts[c].status == Paid
    requires co.status == Paid ==> co.receivedKobo == db.checkouts[c].receivedKobo
    requires co.status != Paid ==> (co.expiredAt.Some? <==> co.status == Expired) && (co.underpaidAt.Some? <==> co.status == Underpaid)
    ensures CheckoutsOk(db')
  {
    forall x: CheckoutId | x < |db'.checkouts| ensures BasketOk(db'.dues, db'.checkouts[x]) && StatusOk(db', x) && LinesPaid(db', x) {
      assert BasketOk(db.dues, db.checkouts[x]) && LinesPaid(db, x);
      RowWriteKeepsStatus(db, db', c, co, x);
    }
    RowWriteKeepsOrigins(db, db', c, co);
  }

  lemma RowWriteKeepsOrigins(db: Db, db': Db, c: CheckoutId, co: Checkout)
    requires Payments(db) && c < |db.checkouts| && SameBasket(db.checkouts[c], co)
    requires co.status == Paid <==> db.checkouts[c].status == Paid
    requires db'.duePayments == db.duePayments && db'.checkouts == db.checkouts[c := co]
    ensures forall i: DuePaymentId {:trigger OriginOk(db', db'.duePayments[i])} :: i < |db'.duePayments| ==> OriginOk(db', db'.duePayments[i])
  {
    forall i: DuePaymentId | i < |db'.duePayments| ensures OriginOk(db', db'.duePayments[i]) {
      assert OriginOk(db, db.duePayments[i]);
    }
  }

  lemma RowWriteKeepsStatus(db: Db, db': Db, c: CheckoutId, co: Checkout, x: CheckoutId)
    requires Statuses(db) && c < |db.checkouts| && x < |db.checkouts| && SameBasket(db.checkouts[c], co)
    requires db' == db.(checkouts := db.checkouts[c := co], txns := db'.txns)
    requires db'.txns == db.txns[co.reference := TxnFor(co.status)]
    requires co.status == Paid <==> db.checkouts[c].status == Paid
    requires co.status == Paid ==> co.receivedKobo == db.checkouts[c].receivedKobo
    requires co.status != Paid ==> (co.expiredAt.Some? <==> co.status == Expired) && (co.underpaidAt.Some? <==> co.status == Underpaid)
    ensures StatusOk(db', x)
  {
    assert StatusOk(db, x) && StatusOk(db, c);
  }

  lemma NotesKeepCheckouts(db: Db, c: CheckoutId, received: int, now: Time, chargeId: Option<nat>, expiresAt: Time)
    requires CheckoutsOk(db) && c < |db.checkouts|
    ensures CheckoutsOk(UnderpaidTx(db, c, received, now))
    ensures CheckoutsOk(ExpireTx(db, c, now))
    ensures CheckoutsOk(OpenAccountTx(db, c, chargeId, expiresAt))
    ensures CheckoutsOk(ResolveTx(db, c))
  {
    var co := db.checkouts[c];
    assert StatusOk(db, c);
    var u, e, o, r := UnderpaidTx(db, c, received, now), ExpireTx(db, c, now), OpenAccountTx(db, c, chargeId, expiresAt), ResolveTx(db, c);
    if u != db { RowWriteKeepsCheckouts(db, u, c, u.checkouts[c]); }
    if e != db { RowWriteKeepsCheckouts(db, e, c, e.checkouts[c]); }
    RowWriteKeepsCheckouts(db, o, c, o.checkouts[c]);
    RowWriteKeepsCheckouts(db, r, c, r.checkouts[c]);
  }

  // ------------------------------------------------------------------- creation

  lemma CreateKeepsCheckouts(db: Db, req: CheckoutRequest)
    requires CheckoutsOk(db) && CreateTx(db, req).Ok? && forall d: DueId :: d < |db.dues| ==> DueOk(db.dues[d])
    ensures CheckoutsOk(CreateTx(db, req).value.db)
  {
    var r := CreateTx(db, req).value;
    if !r.reused {
      var ids := Dedupe(req.dueIds);
      OpenedIsOneMore(db, req);
      NewRowOk(db, req, ids);
      AppendKeepsCheckouts(db, r.db.checkouts[|db.checkouts|]);
    }
  }

  lemma OpenedIsOneMore(db: Db, req: CheckoutRequest)
    requires CreateTx(db, req).Ok? && !CreateTx(db, req).value.reused
    ensures SelectionError(db, req).None? && FreshReference(db, req.reference)
    ensures CheckoutFee(Sums.Sum(Amounts(db.dues, Dedupe(req.dueIds)))).Ok?
    ensures CreateTx(db, req).value.db == Opened(db, req, Dedupe(req.dueIds))
  {
  }

  lemma NewRowOk(db: Db, req: CheckoutRequest, ids: seq<DueId>)
    requires SelectionError(db, req).None? && ids == Dedupe(req.dueIds) && CheckoutFee(Sums.Sum(Amounts(db.dues, ids))).Ok?
    requires forall d: DueId :: d < |db.dues| ==> DueOk(db.dues[d])
    ensures var after := Opened(db, req, ids);
      && |after.checkouts| == |db.checkouts| + 1
      && var co := after.checkouts[|db.checkouts|];
         && after == db.(checkouts := db.checkouts + [co], txns := db.txns[co.reference := TxnPending])
         && BasketOk(db.dues, co) && co.reference == req.reference
         && co.status == CheckoutPending && co.expiredAt.None? && co.underpaidAt.None?
  {
    DedupeCorrect(req.dueIds);
    FeeNotNegative(Sums.Sum(Amounts(db.dues, ids)));
    NewBasketOk(db.dues, req, ids, CheckoutFee(Sums.Sum(Amounts(db.dues, ids))).value);
  }

  lemma AppendKeepsCheckouts(db: Db, co: Checkout)
    requires CheckoutsOk(db) && BasketOk(db.dues, co) && FreshReference(db, co.reference)
    requires co.status == CheckoutPending && co.expiredAt.None? && co.underpaidAt.None?
    ensures CheckoutsOk(db.(checkouts := db.checkouts + [co], txns := db.txns[co.reference := TxnPending]))
  {
    var db' := db.(checkouts := db.checkouts + [co], txns := db.txns[co.reference := TxnPending]);
    forall x: CheckoutId | x < |db'.checkouts| ensures BasketOk(db'.dues, db'.checkouts[x]) && StatusOk(db', x) && LinesPaid(db', x) {
      if x < |db.checkouts| {
        assert BasketOk(db.dues, db.checkouts[x]) && StatusOk(db, x) && LinesPaid(db, x);
      }
    }
    forall i: DuePaymentId | i < |db'.duePayments| ensures OriginOk(db', db'.duePayments[i]) {
      assert OriginOk(db, db.duePayments[i]);
    }
  }

  // --------------------------------------------------------------- new payments

  lemma PaidStaysPaid(dps: seq<DuePayment>, more: seq<DuePayment>, user: UserId, due: DueId)
    requires AlreadyPaid(dps, user, due)
    ensures AlreadyPaid(dps + more, user, due)
  {
    var k :| 0 <= k < |dps| && dps[k].userId == user && dps[k].dueId == due;
    assert (dps + more)[k] == dps[k];
  }

  lemma CreditKeepsCheckouts(db: Db, user: UserId, due: DueId, payee: Payee, reference: Reference)
    requires CheckoutsOk(db) && ManualCreditTx(db, user, due, payee, reference).Ok?
    ensures CheckoutsOk(ManualCreditTx(db, user, due, payee, reference).value)
  {
    var db' := ManualCreditTx(db, user, due, payee, reference).value;
    var line := CreditLine(db, user, due, reference);
    forall c: CheckoutId | c < |db'.checkouts| ensures BasketOk(db'.dues, db'.checkouts[c]) && StatusOk(db', c) && LinesPaid(db', c) {
      var co := db.checkouts[c];
      assert BasketOk(db.dues, co) && StatusOk(db, c) && LinesPaid(db, c);
      forall k | 0 <= k < |co.items| && co.status == Paid ensures AlreadyPaid(db'.duePayments, co.userId, co.items[k].dueId) {
        PaidStaysPaid(db.duePayments, [line], co.userId, co.items[k].dueId);
      }
    }
    forall i: DuePaymentId | i < |db'.duePayments| ensures OriginOk(db', db'.duePayments[i]) {
      if i < |db.duePayments| { assert OriginOk(db, db.duePayments[i]); }
    }
    forall i, j | 0 <= i < j < |db'.duePayments| ensures !SameLink(db'.duePayments[i], db'.duePayments[j]) {
      if j < |db.duePayments| { assert !SameLink(db.duePayments[i], db.duePayments[j]); }
    }
  }

  // ------------------------------------------------------------------- fulfilment

  lemma SameBooksSound(db: Db, db': Db)
    requires Sound(db)
    requires db'.dues == db.dues && db'.payouts == db.payouts && db'.ledger == db.ledger && db'.duePayments == db.duePayments
    ensures Sound(db')
  {
  }

  lemma FulfilBooks(db: Db, c: CheckoutId, received: int, overpaid: int, chargeId: Option<nat>, now: Time)
    requires c < |db.checkouts|
    ensures var co, db' := db.checkouts[c], FulfilTx(db, c, received, overpaid, chargeId, now);
      var books := if FulfilOutcomeOf(db, c, received) == PaidNow then SettleLines(db, c, co, co.items, LinkFor(db, co), db.duePayments) else db;
      db'.dues == books.dues && db'.payouts == books.payouts && db'.ledger == books.ledger && db'.duePayments == books.duePayments
  {
  }

  lemma FulfilKeepsBooks(db: Db, c: CheckoutId, received: int, overpaid: int, chargeId: Option<nat>, now: Time)
    requires Sound(db) && c < |db.checkouts| && CanSettle(db.dues, db.checkouts[c])
    ensures Sound(FulfilTx(db, c, received, overpaid, chargeId, now))
  {
    var co := db.checkouts[c];
    FulfilBooks(db, c, received, overpaid, chargeId, now);
    if FulfilOutcomeOf(db, c, received) == PaidNow {
      SettleKeepsSound(db, c, co, co.items, LinkFor(db, co), db.duePayments);
      SameBooksSound(SettleLines(db, c, co, co.items, LinkFor(db, co), db.duePayments), FulfilTx(db, c, received, overpaid, chargeId, now));
    } else {
      SameBooksSound(db, FulfilTx(db, c, received, overpaid, chargeId, now));
    }
  }

  /** The payments a fulfilment adds. */
  function NewLines(db: Db, c: CheckoutId): seq<DuePayment>
    requires c < |db.checkouts|
  {
    var co := db.checkouts[c];
    Lines(c, co, Unpaid(co.items, co.userId, db.duePayments), LinkFor(db, co))
  }

  lemma FulfilInFull(db: Db, c: CheckoutId, received: int, overpaid: int, chargeId: Option<nat>, now: Time)
    requires Sound(db) && CheckoutsOk(db) && c < |db.checkouts| && FulfilOutcomeOf(db, c, received) == PaidNow
    ensures FulfilTx(db, c, received, overpaid, chargeId, now)
         == Wrote(db, NewLines(db, c)).(
              checkouts := db.checkouts[c := PaidRow(db, c, received, overpaid, now)],
              txns := db.txns[db.checkouts[c].reference := TxnCompleted],
              receipts := db.receipts[c := Receipt(received)])
  {
    var co := db.checkouts[c];
    assert BasketOk(db.dues, co) && StatusOk(db, c);
    SettleWritesUnpaidLines(db, c, co, co.items, LinkFor(db, co), db.duePayments);
  }

  lemma NewLineFacts(db: Db, c: CheckoutId, k: nat)
    requires c < |db.checkouts| && k < |NewLines(db, c)|
    ensures var co, dp := db.checkouts[c], NewLines(db, c)[k];
      && dp.userId == co.userId && dp.checkoutId == Some(c)
      && !AlreadyPaid(db.duePayments, dp.userId, dp.dueId)
      && IsLine(dp, c, co)
      && (dp.txnId.Some? ==> k == 0 && dp.txnId == LinkFor(db, co))
  {
    var co := db.checkouts[c];
    var unpaid := Unpaid(co.items, co.userId, db.duePayments);
    UnpaidMembers(co.items, co.userId, db.duePayments, unpaid[k]);
    var i :| 0 <= i < |co.items| && co.items[i] == unpaid[k];
  }

  lemma FulfilKeepsStatus(db: Db, c: CheckoutId, received: int, overpaid: int, chargeId: Option<nat>, now: Time, x: CheckoutId)
    requires Sound(db) && CheckoutsOk(db) && c < |db.checkouts| && FulfilOutcomeOf(db, c, received) == PaidNow
    requires x < |db.checkouts|
    ensures |FulfilTx(db, c, received, overpaid, chargeId, now).checkouts| == |db.checkouts|
    ensures BasketOk(db.dues, FulfilTx(db, c, received, overpaid, chargeId, now).checkouts[x])
    ensures StatusOk(FulfilTx(db, c, received, overpaid, chargeId, now), x)
  {
    FulfilInFull(db, c, received, overpaid, chargeId, now);
    assert BasketOk(db.dues, db.checkouts[x]) && StatusOk(db, x) && StatusOk(db, c);
    InFullKeepsStatus(db, c, received, overpaid, now, FulfilTx(db, c, received, overpaid, chargeId, now), x);
  }

  lemma InFullKeepsStatus(db: Db, c: CheckoutId, received: int, overpaid: int, now: Time, after: Db, x: CheckoutId)
    requires c < |db.checkouts| && x < |db.checkouts| && received >= db.checkouts[c].totalKobo
    requires StatusOk(db, x) && StatusOk(db, c) && ReferencesDistinct(db.checkouts) && BasketOk(db.dues, db.checkouts[x])
    requires after.checkouts == db.checkouts[c := PaidRow(db, c, received, overpaid, now)] && after.receipts == db.receipts[c := Receipt(received)]
    requires after.txns == db.txns[db.checkouts[c].reference := TxnCompleted]
    ensures BasketOk(db.dues, after.checkouts[x]) && StatusOk(after, x)
  {
    if x != c {
      assert db.checkouts[x].reference != db.checkouts[c].reference by { OtherReference(db.checkouts, c, x); }
    }
  }

  lemma OtherReference(checkouts: seq<Checkout>, a: CheckoutId, b: CheckoutId)
    requires ReferencesDistinct(checkouts) && a < |checkouts| && b < |checkouts| && a != b
    ensures checkouts[a].reference != checkouts[b].reference
  {
    if a < b { assert checkouts[a].reference != checkouts[b].reference; }
  }

  lemma FulfilKeepsStatuses(db: Db, c: CheckoutId, received: int, overpaid: int, chargeId: Option<nat>, now: Time)
    requires Sound(db) && CheckoutsOk(db) && c < |db.checkouts| && FulfilOutcomeOf(db, c, received) == PaidNow
    ensures Baskets(FulfilTx(db, c, received, overpaid, chargeId, now))
    ensures Statuses(FulfilTx(db, c, received, overpaid, chargeId, now))
  {
    var db' := FulfilTx(db, c, received, overpaid, chargeId, now);
    FulfilInFull(db, c, received, overpaid, chargeId, now);
    forall x: CheckoutId | x < |db'.checkouts| ensures BasketOk(db'.dues, db'.checkouts[x]) && StatusOk(db', x) {
      FulfilKeepsStatus(db, c, received, overpaid, chargeId, now, x);
    }
    assert StatusOk(db, c);
  }

  lemma FulfilKeepsLinks(db: Db, c: CheckoutId)
    requires CheckoutsOk(db) && c < |db.checkouts|
    ensures LinksUnique(db.duePayments + NewLines(db, c))
  {
    var all, n := db.duePayments + NewLines(db, c), |db.duePayments|;
    forall i, j | 0 <= i < j < |all| ensures !SameLink(all[i], all[j]) {
      if j < n {
        assert !SameLink(db.duePayments[i], db.duePayments[j]);
      } else {
        NewLineFacts(db, c, j - n);
      }
    }
  }

  lemma FulfilKeepsPayments(db: Db, c: CheckoutId, received: int, overpaid: int, chargeId: Option<nat>, now: Time)
    requires Sound(db) && CheckoutsOk(db) && c < |db.checkouts| && FulfilOutcomeOf(db, c, received) == PaidNow
    ensures Payments(FulfilTx(db, c, received, overpaid, chargeId, now))
  {
    var db' := FulfilTx(db, c, received, overpaid, chargeId, now);
    FulfilInFull(db, c, received, overpaid, chargeId, now);
    FulfilKeepsLinks(db, c);
    forall x: CheckoutId | x < |db'.checkouts| ensures LinesPaid(db', x) {
      FulfilKeepsLinesPaid(db, c, x, received, overpaid, chargeId, now);
    }
    FulfilKeepsOrigins(db, c, received, overpaid, now, db');
    FulfilKeepsLinksKnown(db, c, db');
  }

  lemma FulfilKeepsOrigins(db: Db, c: CheckoutId, received: int, overpaid: int, now: Time, after: Db)
    requires Payments(db) && c < |db.checkouts| && after.duePayments == db.duePayments + NewLines(db, c)
    requires after.checkouts == db.checkouts[c := PaidRow(db, c, received, overpaid, now)] && db.checkouts[c].status != Paid
    ensures forall i: DuePaymentId {:trigger OriginOk(after, after.duePayments[i])} :: i < |after.duePayments| ==> OriginOk(after, after.duePayments[i])
  {
    var n := |db.duePayments|;
    forall i: DuePaymentId | i < |after.duePayments| ensures OriginOk(after, after.duePayments[i]) {
      if i < n {
        assert OriginOk(db, db.duePayments[i]);
      } else {
        NewLineFacts(db, c, i - n);
        LineOfPaidRow(db, c, NewLines(db, c)[i - n], received, overpaid, now);
      }
    }
  }

  lemma FulfilKeepsLinksKnown(db: Db, c: CheckoutId, after: Db)
    requires LinksKnown(db) && c < |db.checkouts| && after.duePayments == db.duePayments + NewLines(db, c)
    requires forall r: Reference :: r in db.txns ==> r in after.txns
    ensures LinksKnown(after)
  {
    var n := |db.duePayments|;
    forall i: DuePaymentId | i < |after.duePayments| && after.duePayments[i].txnId.Some? ensures after.duePayments[i].txnId.value in after.txns {
      if i >= n { NewLineFacts(db, c, i - n); }
    }
  }

  lemma LineOfPaidRow(db: Db, c: CheckoutId, dp: DuePayment, received: int, overpaid: int, now: Time)
    requires c < |db.checkouts| && IsLine(dp, c, db.checkouts[c])
    ensures IsLine(dp, c, PaidRow(db, c, received, overpaid, now))
  {
    var co, co' := db.checkouts[c], PaidRow(db, c, received, overpaid, now);
    var k :| 0 <= k < |co.items| && dp == LineFor(c, co, co.items[k], dp.txnId);
    assert dp == LineFor(c, co', co'.items[k], dp.txnId);
  }

  lemma FulfilKeepsLinesPaid(db: Db, c: CheckoutId, x: CheckoutId, received: int, overpaid: int, chargeId: Option<nat>, now: Time)
    requires Sound(db) && CheckoutsOk(db) && c < |db.checkouts| && x < |db.checkouts| && FulfilOutcomeOf(db, c, received) == PaidNow
    ensures |FulfilTx(db, c, received, overpaid, chargeId, now).checkouts| == |db.checkouts|
    ensures LinesPaid(FulfilTx(db, c, received, overpaid, chargeId, now), x)
  {
    var db' := FulfilTx(db, c, received, overpaid, chargeId, now);
    FulfilInFull(db, c, received, overpaid, chargeId, now);
    var co := db.checkouts[x];
    assert LinesPaid(db, x) && BasketOk(db.dues, db.checkouts[c]);
    forall k | 0 <= k < |co.items| && db'.checkouts[x].status == Paid ensures AlreadyPaid(db'.duePayments, co.userId, co.items[k].dueId) {
      if x == c {
        SettleCoversBasket(db, c, co, LinkFor(db, co), k);
      } else {
        PaidStaysPaid(db.duePayments, NewLines(db, c), co.userId, co.items[k].dueId);
      }
    }
  }

  lemma FulfilKeepsCheckouts(db: Db, c: CheckoutId, received: int, overpaid: int, chargeId: Option<nat>, now: Time)
    requires Sound(db) && CheckoutsOk(db) && c < |db.checkouts|
    ensures CheckoutsOk(FulfilTx(db, c, received, overpaid, chargeId, now))
  {
    var db' := FulfilTx(db, c, received, overpaid, chargeId, now);
    if FulfilOutcomeOf(db, c, received) == PaidNow {
      FulfilKeepsStatuses(db, c, received, overpaid, chargeId, now);
      FulfilKeepsPayments(db, c, received, overpaid, chargeId, now);
    } else if db' != db {
      assert StatusOk(db, c);
      RowWriteKeepsCheckouts(db, db', c, db'.checkouts[c]);
    }
  }
}
