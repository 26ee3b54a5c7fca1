/** What an unflagged checkout guarantees: no unexplained money (src/services/checkout.service.ts:406-549). */
module Review {
  import opened Wrappers
  import opened StateMachine
  import opened Tables
  import opened Books
  import opened Checkouts
  import opened CheckoutFacts

  /** Nothing about this checkout needs explaining: what arrived is what was asked, it was paid
      while open, and nobody had settled one of its dues by another route. */
  ghost predicate Plain(db: Db, c: CheckoutId)
    requires c < |db.checkouts|
  {
    var co := db.checkouts[c];
    && (co.receivedKobo.Some? ==> co.receivedKobo == Some(co.totalKobo))
    && co.overpaidKobo <= 0
    && co.status != Underpaid
    && (co.status == Paid ==> co.expiredAt.None? && co.underpaidAt.None? && !PaidElsewhere(db, c, co))
  }

  /** Whatever needs explaining is in front of an admin. */
  ghost predicate ReviewOk(db: Db, c: CheckoutId)
    requires c < |db.checkouts|
  {
    !db.checkouts[c].needsReview ==> Plain(db, c)
  }

  ghost predicate AllReviewed(db: Db) {
    forall c: CheckoutId {:trigger ReviewOk(db, c)} :: c < |db.checkouts| ==> ReviewOk(db, c)
  }

  /** No flag is ever lowered. */
  ghost predicate FlagsStay(db: Db, db': Db) {
    |db.checkouts| <= |db'.checkouts|
    && forall c: CheckoutId :: c < |db.checkouts| && db.checkouts[c].needsReview ==> db'.checkouts[c].needsReview
  }

  /** Once a checkout is paid, no later payment can be for one of its dues. */
  lemma LaterPaymentsAreElsewhere(db: Db, c: CheckoutId, more: seq<DuePayment>)
    requires c < |db.checkouts| && LinesPaid(db, c) && db.checkouts[c].status == Paid
    requires forall k :: 0 <= k < |more| ==> !AlreadyPaid(db.duePayments, more[k].userId, more[k].dueId)
    requires !PaidElsewhere(db, c, db.checkouts[c])
    ensures !PaidElsewhere(db.(duePayments := db.duePayments + more), c, db.checkouts[c])
  {
    var co, n := db.checkouts[c], |db.duePayments|;
    forall i, k | 0 <= i < |co.items| && 0 <= k < |db.duePayments + more|
      ensures !PaidByOther((db.duePayments + more)[k], c, co, co.items[i])
    {
      if k < n {
        assert !PaidByOther(db.duePayments[k], c, co, co.items[i]);
      } else {
        assert AlreadyPaid(db.duePayments, co.userId, co.items[i].dueId);
        assert !AlreadyPaid(db.duePayments, more[k - n].userId, more[k - n].dueId);
      }
    }
  }

  /** Writing payments for dues nobody had paid cannot turn a plain checkout into an
      unexplained one. */
  lemma NewPaymentsKeepReview(db: Db, db': Db, more: seq<DuePayment>, c: CheckoutId)
    requires c < |db.checkouts| && c < |db'.checkouts| && db'.checkouts[c] == db.checkouts[c]
    requires db'.duePayments == db.duePayments + more
    requires LinesPaid(db, c) && ReviewOk(db, c)
    requires forall k :: 0 <= k < |more| ==> !AlreadyPaid(db.duePayments, more[k].userId, more[k].dueId)
    ensures ReviewOk(db', c)
  {
    if !db.checkouts[c].needsReview && db.checkouts[c].status == Paid {
      LaterPaymentsAreElsewhere(db, c, more);
    }
  }

  lemma CreditKeepsReview(db: Db, user: UserId, due: DueId, payee: Payee, reference: Reference)
    requires AllReviewed(db) && Payments(db) && ManualCreditTx(db, user, due, payee, reference).Ok?
    ensures var db' := ManualCreditTx(db, user, due, payee, reference).value; AllReviewed(db') && FlagsStay(db, db')
  {
    var db' := ManualCreditTx(db, user, due, payee, reference).value;
    forall c: CheckoutId | c < |db'.checkouts| ensures ReviewOk(db', c) {
      assert ReviewOk(db, c) && LinesPaid(db, c);
      NewPaymentsKeepReview(db, db', [CreditLine(db, user, due, reference)], c);
    }
  }

  /** A write to one row that leaves every payment alone. */
  lemma RowWriteKeepsReview(db: Db, db': Db, c: CheckoutId)
    requires AllReviewed(db) && c < |db.checkouts| == |db'.checkouts| && db'.duePayments == db.duePayments
    requires forall x: CheckoutId :: x < |db.checkouts| && x != c ==> db'.checkouts[x] == db.checkouts[x]
    requires ReviewOk(db', c)
    ensures AllReviewed(db')
  {
    forall x: CheckoutId | x < |db'.checkouts| ensures ReviewOk(db', x) {
      assert ReviewOk(db, x);
    }
  }

  lemma NotesKeepReview(db: Db, c: CheckoutId, received: int, now: Time, chargeId: Option<nat>, expiresAt: Time)
    requires AllReviewed(db) && c < |db.checkouts|
    ensures var u := UnderpaidTx(db, c, received, now); AllReviewed(u) && FlagsStay(db, u)
    ensures var e := ExpireTx(db, c, now); AllReviewed(e) && FlagsStay(db, e)
    ensures var o := OpenAccountTx(db, c, chargeId, expiresAt); AllReviewed(o) && FlagsStay(db, o)
  {
    assert ReviewOk(db, c);
    RowWriteKeepsReview(db, UnderpaidTx(db, c, received, now), c);
    RowWriteKeepsReview(db, ExpireTx(db, c, now), c);
    RowWriteKeepsReview(db, OpenAccountTx(db, c, chargeId, expiresAt), c);
  }

  lemma CreateKeepsReview(db: Db, req: CheckoutRequest)
    requires AllReviewed(db) && CreateTx(db, req).Ok?
    ensures var db' := CreateTx(db, req).value.db; AllReviewed(db') && FlagsStay(db, db')
  {
    var r := CreateTx(db, req).value;
    if !r.reused { AppendKeepsReview(db, r.db, r.db.checkouts[|db.checkouts|]); }
  }

  lemma AppendKeepsReview(db: Db, after: Db, co: Checkout)
    requires AllReviewed(db) && after.checkouts == db.checkouts + [co] && after.duePayments == db.duePayments
    requires co.status == CheckoutPending && co.receivedKobo.None? && co.overpaidKobo == 0
    ensures AllReviewed(after) && FlagsStay(db, after)
  {
    forall x: CheckoutId | x < |after.checkouts| ensures ReviewOk(after, x) {
      if x < |db.checkouts| { assert ReviewOk(db, x); }
    }
  }

  /** A checkout comes out of its payment flagged exactly if it was before, or the payment is not
      plain. */
  lemma PaymentFlagsTheUnexplained(db: Db, c: CheckoutId, received: int, overpaid: int, chargeId: Option<nat>, now: Time)
    requires Sound(db) && CheckoutsOk(db) && c < |db.checkouts| && FulfilOutcomeOf(db, c, received) == PaidNow
    ensures var after := FulfilTx(db, c, received, overpaid, chargeId, now);
      c < |after.checkouts| && (after.checkouts[c].needsReview <==> db.checkouts[c].needsReview || !Plain(after, c))
  {
    var after := FulfilTx(db, c, received, overpaid, chargeId, now);
    FulfilInFull(db, c, received, overpaid, chargeId, now);
    assert StatusOk(db, c);
    OwnLinesAreNotElsewhere(db, c, after, received, overpaid, now);
  }

  lemma OwnLinesAreNotElsewhere(db: Db, c: CheckoutId, after: Db, received: int, overpaid: int, now: Time)
    requires c < |db.checkouts| && after.duePayments == db.duePayments + NewLines(db, c)
    ensures PaidElsewhere(after, c, PaidRow(db, c, received, overpaid, now)) <==> PaidElsewhere(db, c, db.checkouts[c])
  {
    var co, n := db.checkouts[c], |db.duePayments|;
    forall i, k | 0 <= i < |co.items| && 0 <= k < |after.duePayments|
      ensures PaidByOther(after.duePayments[k], c, co, co.items[i]) <==> k < n && PaidByOther(db.duePayments[k], c, co, co.items[i])
    {
      if k >= n { NewLineFacts(db, c, k - n); }
    }
    if PaidElsewhere(db, c, co) {
      var i, k :| 0 <= i < |co.items| && 0 <= k < n && PaidByOther(db.duePayments[k], c, co, co.items[i]);
      assert PaidByOther(after.duePayments[k], c, PaidRow(db, c, received, overpaid, now), co.items[i]);
    }
    var paid := PaidRow(db, c, received, overpaid, now);
    if PaidElsewhere(after, c, paid) {
      var i, k :| 0 <= i < |co.items| && 0 <= k < |after.duePayments| && PaidByOther(after.duePayments[k], c, paid, paid.items[i]);
      assert PaidByOther(after.duePayments[k], c, co, co.items[i]);
    }
  }

  /** A short payment on an unpaid checkout is always on record, and in front of an admin unless
      it only repeats one an admin has already resolved. */
  lemma ShortMoneyIsOnRecord(db: Db, c: CheckoutId, received: int, now: Time)
    requires c < |db.checkouts| && db.checkouts[c].status != Paid
    ensures var o, co := db.checkouts[c], UnderpaidTx(db, c, received, now).checkouts;
      && |co| == |db.checkouts| && co[c].receivedKobo == Some(received)
      && (co[c].needsReview <==> !(o.status == Underpaid && o.receivedKobo == Some(received) && !o.needsReview))
  {
  }

  lemma OthersStayReviewed(db: Db, c: CheckoutId, after: Db)
    requires AllReviewed(db) && Payments(db) && c < |db.checkouts| == |after.checkouts|
    requires forall x: CheckoutId :: x < |db.checkouts| && x != c ==> after.checkouts[x] == db.checkouts[x]
    requires after.duePayments == db.duePayments + NewLines(db, c)
    ensures forall x: CheckoutId :: x < |after.checkouts| && x != c ==> ReviewOk(after, x)
  {
    forall k | 0 <= k < |NewLines(db, c)| ensures !AlreadyPaid(db.duePayments, NewLines(db, c)[k].userId, NewLines(db, c)[k].dueId) {
      NewLineFacts(db, c, k);
    }
    forall x: CheckoutId | x < |after.checkouts| && x != c ensures ReviewOk(after, x) {
      assert ReviewOk(db, x) && LinesPaid(db, x);
      NewPaymentsKeepReview(db, after, NewLines(db, c), x);
    }
  }

  lemma FulfilKeepsReview(db: Db, c: CheckoutId, received: int, overpaid: int, chargeId: Option<nat>, now: Time)
    requires AllReviewed(db) && Sound(db) && CheckoutsOk(db) && c < |db.checkouts|
    ensures var db' := FulfilTx(db, c, received, overpaid, chargeId, now); AllReviewed(db') && FlagsStay(db, db')
  {
    var db' := FulfilTx(db, c, received, overpaid, chargeId, now);
    if FulfilOutcomeOf(db, c, received) == PaidNow {
      FulfilInFull(db, c, received, overpaid, chargeId, now);
      PaymentFlagsTheUnexplained(db, c, received, overpaid, chargeId, now);
      OthersStayReviewed(db, c, db');
    } else {
      assert ReviewOk(db, c);
      RowWriteKeepsReview(db, db', c);
    }
  }
}
