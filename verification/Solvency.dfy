/** What sound books say about every derived balance. */
module Solvency {
  import opened Wrappers
  import opened StateMachine
  import opened Tables
  import opened Ledger
  import opened Books
  import opened DueAvailability

  /** Face value collected, over the due payments a query selects. */
  function Collected(dues: seq<Due>, dps: seq<DuePayment>, t: Tag -> bool): int {
    if dps == [] then 0
    else
      var i := |dps| - 1;
      Collected(dues, dps[..i], t) + if t(PaymentTag(dues, i, dps[i])) then dps[i].netToSpace else 0
  }

  /** Gross of the withdrawals a query selects that have not been restored. */
  function Held(payouts: seq<Payout>, t: Tag -> bool): int {
    if payouts == [] then 0
    else
      var i := |payouts| - 1;
      Held(payouts[..i], t) + if t(PayoutTag(i, payouts[i])) && !PayoutRestored(payouts[i].status) then payouts[i].amount else 0
  }

  lemma {:induction false} PaymentsNet(dues: seq<Due>, dps: seq<DuePayment>, t: Tag -> bool)
    ensures Net(PaymentsBooked(dues, dps), On(t)) == Collected(dues, dps, t)
  {
    if dps != [] {
      var i := |dps| - 1;
      PaymentsNet(dues, dps[..i], t);
      assert PaymentsBooked(dues, dps)[..i] == PaymentsBooked(dues, dps[..i]);
    }
  }

  lemma NetOfOnePayout(i: PayoutId, p: Payout, t: Tag -> bool)
    requires p.amount == p.netKobo + p.feeKobo
    ensures Net(PayoutEntries(i, p), On(t)) == -(if t(PayoutTag(i, p)) && !PayoutRestored(p.status) then p.amount else 0)
  {
    var open := PayoutEntries(i, p.(status := Pending));
    assert PayoutTag(i, p.(status := Pending)) == PayoutTag(i, p);
    DebitTakesGross([], i, p.(status := Pending), t);
    assert [] + open == open;
    if PayoutRestored(p.status) {
      assert PayoutEntries(i, p) == open + [ReversalEntry(i, p)];
      NetAppend(open, ReversalEntry(i, p), On(t));
    } else {
      assert PayoutEntries(i, p) == open;
    }
  }

  lemma {:induction false} PayoutsNet(dues: seq<Due>, payouts: seq<Payout>, t: Tag -> bool)
    requires forall i: PayoutId :: i < |payouts| ==> PayoutOk(dues, payouts[i])
    ensures Net(PayoutsBooked(payouts), On(t)) == -Held(payouts, t)
  {
    if payouts != [] {
      var i := |payouts| - 1;
      PayoutsNet(dues, payouts[..i], t);
      BookedAfterAdding(payouts[..i], payouts[i]);
      assert payouts[..i] + [payouts[i]] == payouts;
      NetConcat(PayoutsBooked(payouts[..i]), PayoutEntries(i, payouts[i]), On(t));
      assert PayoutOk(dues, payouts[i]);
      NetOfOnePayout(i, payouts[i], t);
    }
  }

  /** The identity behind every balance: over any selection by space, due, payment or
      withdrawal, the ledger nets to what was collected less what withdrawals still hold. */
  lemma NetIsCollectedLessHeld(db: Db, t: Tag -> bool)
    requires Booked(db) && RowsOk(db)
    ensures Net(db.ledger, On(t)) == Collected(db.dues, db.duePayments, t) - Held(db.payouts, t)
  {
    var a, b := PaymentsBooked(db.dues, db.duePayments), PayoutsBooked(db.payouts);
    NetPermutes(db.ledger, a + b, On(t));
    NetConcat(a, b, On(t));
    PaymentsNet(db.dues, db.duePayments, t);
    PayoutsNet(db.dues, db.payouts, t);
  }

  lemma {:induction false} NoneCollected(dues: seq<Due>, dps: seq<DuePayment>, t: Tag -> bool)
    requires forall i: DuePaymentId :: i < |dps| ==> !t(PaymentTag(dues, i, dps[i]))
    ensures Collected(dues, dps, t) == 0
  {
    if dps != [] { NoneCollected(dues, dps[..|dps| - 1], t); }
  }

  lemma {:induction false} HeldNotNegative(dues: seq<Due>, payouts: seq<Payout>, t: Tag -> bool)
    requires forall i: PayoutId :: i < |payouts| ==> PayoutOk(dues, payouts[i])
    ensures 0 <= Held(payouts, t)
  {
    if payouts != [] {
      assert PayoutOk(dues, payouts[|payouts| - 1]);
      HeldNotNegative(dues, payouts[..|payouts| - 1], t);
    }
  }

  lemma {:induction false} HeldByOne(payouts: seq<Payout>, p: PayoutId)
    ensures Held(payouts, OfPayout(p)) == if p < |payouts| && !PayoutRestored(payouts[p].status) then payouts[p].amount else 0
  {
    if payouts != [] { HeldByOne(payouts[..|payouts| - 1], p); }
  }

  lemma NothingCollectedByPayouts(dues: seq<Due>, dps: seq<DuePayment>, p: PayoutId)
    ensures Collected(dues, dps, OfPayout(p)) == 0
  {
    NoneCollected(dues, dps, OfPayout(p));
  }

  /** A withdrawal's own entries net to minus its gross until it is restored, and then to
      exactly nothing. */
  lemma PayoutNetsToGrossOrNothing(db: Db, p: PayoutId)
    requires RowsOk(db) && Booked(db) && p < |db.payouts|
    ensures PayoutNet(db.ledger, p) == if PayoutRestored(db.payouts[p].status) then 0 else -db.payouts[p].amount
  {
    PayoutNetIsHeld(db, p);
    HeldDecides(db, p);
  }

  lemma HeldDecides(db: Db, p: PayoutId)
    requires p < |db.payouts| && PayoutNet(db.ledger, p) == -Held(db.payouts, OfPayout(p))
    ensures PayoutNet(db.ledger, p) == if PayoutRestored(db.payouts[p].status) then 0 else -db.payouts[p].amount
  {
    HeldByOne(db.payouts, p);
  }

  lemma PayoutNetIsHeld(db: Db, p: PayoutId)
    requires RowsOk(db) && Booked(db)
    ensures PayoutNet(db.ledger, p) == -Held(db.payouts, OfPayout(p))
  {
    NetIsCollectedLessHeld(db, OfPayout(p));
    NothingCollectedByPayouts(db.dues, db.duePayments, p);
  }

  /** Every space's balance is what it collected less what its open and successful withdrawals
      took, and is never negative. */
  lemma SpaceIsSolvent(db: Db, s: SpaceId)
    requires Sound(db)
    ensures SpaceBalance(db.ledger, s) == Collected(db.dues, db.duePayments, InSpace(s)) - Held(db.payouts, InSpace(s))
    ensures 0 <= SpaceBalance(db.ledger, s)
  {
    NetIsCollectedLessHeld(db, InSpace(s));
  }

  lemma DueIsSolvent(db: Db, s: SpaceId, d: DueId)
    requires Sound(db)
    ensures DueNet(db.ledger, s, d) == Collected(db.dues, db.duePayments, OfDue(s, Some(d))) - Held(db.payouts, OfDue(s, Some(d)))
    ensures 0 <= DueNet(db.ledger, s, d)
  {
    NetIsCollectedLessHeld(db, OfDue(s, Some(d)));
  }

  /** Only whole-space withdrawals move money without a due, so that part is never a surplus. */
  lemma DuelessIsOutflow(db: Db, s: SpaceId)
    requires Sound(db)
    ensures DuelessNet(db.ledger, s) == -Held(db.payouts, OfDue(s, None)) <= 0
  {
    NetIsCollectedLessHeld(db, OfDue(s, None));
    NoneCollected(db.dues, db.duePayments, OfDue(s, None));
    HeldNotNegative(db.dues, db.payouts, OfDue(s, None));
  }

  /** In sound books what the dues can pay out adds up to exactly the space's balance. */
  lemma AvailabilitySumsToBalance(db: Db, s: SpaceId, lead: Option<UserId>)
    requires Sound(db)
    ensures TotalAvailable(db.ledger, db.dues, s, lead) == SpaceBalance(db.ledger, s)
  {
    DuelessIsOutflow(db, s);
    SpaceIsSolvent(db, s);
    var order := Order(db.dues, s, lead);
    OrderListsTheDues(db.dues, s, lead);
    forall k | 0 <= k < |db.ledger| && db.ledger[k].tag.spaceId == s && db.ledger[k].tag.dueId.Some?
      ensures db.ledger[k].tag.dueId.value in order
    {
      EntryDueInSpace(db, k);
    }
    AvailabilityPartitionsBalance(db.ledger, db.dues, s, lead);
  }

  lemma EntryDueInSpace(db: Db, k: nat)
    requires Sound(db) && k < |db.ledger| && db.ledger[k].tag.dueId.Some?
    ensures var t := db.ledger[k].tag; t.dueId.value < |db.dues| && db.dues[t.dueId.value].spaceId == t.spaceId
  {
    var e := db.ledger[k];
    EntryExplained(db, k);
    if ExplainedByPayment(db, e) {
      assert PaymentOk(db.dues, db.duePayments[e.tag.duePaymentId.value]);
    } else {
      PayoutEntryTag(e.tag.payoutId.value, db.payouts[e.tag.payoutId.value], e);
      assert PayoutOk(db.dues, db.payouts[e.tag.payoutId.value]);
    }
  }

  /** Each due payment has one ledger entry, its credit at face value to the due's own space,
      and no other. */
  lemma OneCreditPerPayment(db: Db, i: DuePaymentId)
    requires Sound(db) && i < |db.duePayments|
    ensures exists k :: 0 <= k < |db.ledger| && db.ledger[k] == PaymentEntry(db.dues, i, db.duePayments[i])
    ensures forall k, k' | 0 <= k < |db.ledger| && 0 <= k' < |db.ledger| ::
      (db.ledger[k].tag.duePaymentId == Some(i) && db.ledger[k'].tag.duePaymentId == Some(i)) ==> k == k'
  {
    var e := PaymentEntry(db.dues, i, db.duePayments[i]);
    assert e == PaymentsBooked(db.dues, db.duePayments)[i];
    assert e in multiset(PaymentsBooked(db.dues, db.duePayments));
    assert e in multiset(db.ledger);
    forall k, k' | 0 <= k < |db.ledger| && 0 <= k' < |db.ledger|
      && db.ledger[k].tag.duePaymentId == Some(i) && db.ledger[k'].tag.duePaymentId == Some(i)
      ensures k == k'
    {
      EntryExplained(db, k);
      EntryExplained(db, k');
      assert db.ledger[k] == e && db.ledger[k'] == e;
      assert SameKey(e, e);
    }
  }

  /** A withdrawal has a reversal entry exactly when it is closed as restored, and never two. */
  lemma ReversalIffRestored(db: Db, p: PayoutId)
    requires Sound(db) && p < |db.payouts|
    ensures (exists k :: 0 <= k < |db.ledger| && ReversalOf(db.ledger[k], p)) <==> PayoutRestored(db.payouts[p].status)
    ensures forall k, k' :: 0 <= k < k' < |db.ledger| ==> !(ReversalOf(db.ledger[k], p) && ReversalOf(db.ledger[k'], p))
  {
    forall k | 0 <= k < |db.ledger| && ReversalOf(db.ledger[k], p) ensures PayoutRestored(db.payouts[p].status) {
      EntryExplained(db, k);
    }
    if PayoutRestored(db.payouts[p].status) { RestoredHasReversal(db, p); }
    forall k, k' | 0 <= k < k' < |db.ledger| ensures !(ReversalOf(db.ledger[k], p) && ReversalOf(db.ledger[k'], p)) {
      assert !SameKey(db.ledger[k], db.ledger[k']);
    }
  }

  lemma RestoredHasReversal(db: Db, p: PayoutId)
    requires Booked(db) && p < |db.payouts| && PayoutRestored(db.payouts[p].status)
    ensures exists k :: 0 <= k < |db.ledger| && ReversalOf(db.ledger[k], p)
  {
    var e := ReversalEntry(p, db.payouts[p]);
    assert e == PayoutEntries(p, db.payouts[p])[|PayoutEntries(p, db.payouts[p])| - 1];
    FlattenOrigin(EntriesByPayout(db.payouts), e);
    assert e in EntriesByPayout(db.payouts)[p];
    assert e in multiset(PayoutsBooked(db.payouts));
    assert e in multiset(db.ledger);
    var k :| 0 <= k < |db.ledger| && db.ledger[k] == e;
    assert ReversalOf(db.ledger[k], p);
  }

  predicate ReversalOf(e: Entry, p: PayoutId) { e.kind == PayoutReversal && e.tag.payoutId == Some(p) }

  /** Closing a withdrawal gives its whole gross back to its space and its due, and nothing to
      any other. */
  lemma RestoreReturnsGross(db: Db, i: PayoutId, closed: Payout, t: Tag -> bool)
    requires Sound(db) && i < |db.payouts| && !PayoutRestored(db.payouts[i].status)
    ensures Net(Restore(db, i, closed).ledger, On(t))
         == Net(db.ledger, On(t)) + if t(PayoutTag(i, db.payouts[i])) then db.payouts[i].amount else 0
  {
    ReversalIsNew(db, i);
    NetAppend(db.ledger, ReversalEntry(i, db.payouts[i]), On(t));
  }
}
