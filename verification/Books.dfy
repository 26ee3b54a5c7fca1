/** What the ledger must hold: exactly the entries its business rows call for. */
module Books {
  import opened Wrappers
  import opened Money
  import opened StateMachine
  import opened Tables
  import opened Ledger

  const MAX_DUE_AMOUNT_KOBO: int := 100_000_000

  function PayoutTag(i: PayoutId, p: Payout): Tag { Tag(p.spaceId, p.dueId, None, Some(i)) }

  function DebitEntry(i: PayoutId, p: Payout): Entry { Entry(PayoutDebit, Debit, p.netKobo, PayoutTag(i, p)) }

  function FeeEntry(i: PayoutId, p: Payout): Entry { Entry(PayoutFee, Debit, p.feeKobo, PayoutTag(i, p)) }

  function ReversalEntry(i: PayoutId, p: Payout): Entry { Entry(PayoutReversal, Credit, p.amount, PayoutTag(i, p)) }

  /** The entries one withdrawal calls for: what was sent, the fee unless it is nothing, and
      the whole gross back once it is closed without the money going out. */
  function PayoutEntries(i: PayoutId, p: Payout): seq<Entry> {
    [DebitEntry(i, p)]
    + (if p.feeKobo == 0 then [] else [FeeEntry(i, p)])
    + (if PayoutRestored(p.status) then [ReversalEntry(i, p)] else [])
  }

  function Flatten(lists: seq<seq<Entry>>): seq<Entry> {
    if lists == [] then [] else Flatten(lists[..|lists| - 1]) + lists[|lists| - 1]
  }

  function EntriesByPayout(payouts: seq<Payout>): (r: seq<seq<Entry>>)
    ensures |r| == |payouts| && forall i :: 0 <= i < |r| ==> r[i] == PayoutEntries(i, payouts[i])
  {
    seq(|payouts|, i requires 0 <= i < |payouts| => PayoutEntries(i, payouts[i]))
  }

  function PayoutsBooked(payouts: seq<Payout>): seq<Entry> { Flatten(EntriesByPayout(payouts)) }

  function SpaceOfDue(dues: seq<Due>, d: DueId): SpaceId { if d < |dues| then dues[d].spaceId else 0 }

  function PaymentTag(dues: seq<Due>, i: DuePaymentId, dp: DuePayment): Tag {
    Tag(SpaceOfDue(dues, dp.dueId), Some(dp.dueId), Some(i), None)
  }

  /** The one entry a due payment calls for: its face value to the due's own space. */
  function PaymentEntry(dues: seq<Due>, i: DuePaymentId, dp: DuePayment): Entry {
    Entry(if dp.checkoutId.Some? then DuePaymentCredit else ManualCredit, Credit, dp.netToSpace, PaymentTag(dues, i, dp))
  }

  function PaymentsBooked(dues: seq<Due>, dps: seq<DuePayment>): (r: seq<Entry>)
    ensures |r| == |dps| && forall i :: 0 <= i < |r| ==> r[i] == PaymentEntry(dues, i, dps[i])
  {
    seq(|dps|, i requires 0 <= i < |dps| => PaymentEntry(dues, i, dps[i]))
  }

  // -------------------------------------------------------------- the invariant

  predicate DueOk(d: Due) { 0 < d.amount <= MAX_DUE_AMOUNT_KOBO }

  ghost predicate PayoutOk(dues: seq<Due>, p: Payout) {
    && 0 < p.netKobo && 0 <= p.feeKobo && p.amount == p.netKobo + p.feeKobo && IsSafeInteger(p.amount)
    && (p.dueId.Some? ==> p.dueId.value < |dues| && dues[p.dueId.value].spaceId == p.spaceId)
    && p.activeSpaceId == if PayoutActive(p.status) then Some(p.spaceId) else None
  }

  ghost predicate PaymentOk(dues: seq<Due>, dp: DuePayment) {
    && dp.dueId < |dues| && 0 < dp.netToSpace && IsSafeInteger(dp.netToSpace)
    && 0 <= dp.duevyFee && dp.amountPaid == dp.netToSpace + dp.duevyFee
  }

  ghost predicate RowsOk(db: Db) {
    && (forall d: DueId {:trigger DueOk(db.dues[d])} :: d < |db.dues| ==> DueOk(db.dues[d]))
    && (forall i: PayoutId {:trigger PayoutOk(db.dues, db.payouts[i])} :: i < |db.payouts| ==> PayoutOk(db.dues, db.payouts[i]))
    && (forall i: DuePaymentId {:trigger PaymentOk(db.dues, db.duePayments[i])} ::
          i < |db.duePayments| ==> PaymentOk(db.dues, db.duePayments[i]))
  }

  ghost predicate Booked(db: Db) {
    multiset(db.ledger) == multiset(PaymentsBooked(db.dues, db.duePayments)) + multiset(PayoutsBooked(db.payouts))
  }

  /** No space, and no due, is ever overdrawn. */
  ghost predicate NotOverdrawn(ledger: seq<Entry>) {
    && (forall s: SpaceId :: 0 <= SpaceBalance(ledger, s))
    && (forall s: SpaceId, d: DueId :: 0 <= DueNet(ledger, s, d))
  }

  /** At most one withdrawal of a space is in flight. */
  ghost predicate OneInFlight(payouts: seq<Payout>) {
    forall i, j {:trigger BothInFlight(payouts[i], payouts[j])} :: 0 <= i < j < |payouts| ==> !BothInFlight(payouts[i], payouts[j])
  }

  predicate BothInFlight(p: Payout, q: Payout) {
    PayoutActive(p.status) && PayoutActive(q.status) && p.spaceId == q.spaceId
  }

  /** A student pays for a due once. */
  ghost predicate PaidOnce(dps: seq<DuePayment>) {
    forall i, j {:trigger SamePayment(dps[i], dps[j])} :: 0 <= i < j < |dps| ==> !SamePayment(dps[i], dps[j])
  }

  predicate SamePayment(a: DuePayment, b: DuePayment) { a.userId == b.userId && a.dueId == b.dueId }

  ghost predicate Sound(db: Db) {
    RowsOk(db) && Booked(db) && KeysUnique(db.ledger) && NotOverdrawn(db.ledger) && OneInFlight(db.payouts) && PaidOnce(db.duePayments)
  }

  // ------------------------------------------------- every entry is explained

  lemma {:induction false} FlattenOrigin(lists: seq<seq<Entry>>, e: Entry)
    ensures e in Flatten(lists) <==> exists i :: 0 <= i < |lists| && e in lists[i]
  {
    if lists != [] {
      var n := |lists| - 1;
      FlattenOrigin(lists[..n], e);
      assert forall i :: 0 <= i < n ==> lists[..n][i] == lists[i];
    }
  }

  ghost predicate ExplainedByPayment(db: Db, e: Entry) {
    && e.tag.payoutId.None? && e.tag.duePaymentId.Some? && e.tag.duePaymentId.value < |db.duePayments|
    && e == PaymentEntry(db.dues, e.tag.duePaymentId.value, db.duePayments[e.tag.duePaymentId.value])
  }

  ghost predicate ExplainedByPayout(db: Db, e: Entry) {
    && e.tag.duePaymentId.None? && e.tag.payoutId.Some? && e.tag.payoutId.value < |db.payouts|
    && e in PayoutEntries(e.tag.payoutId.value, db.payouts[e.tag.payoutId.value])
  }

  lemma PayoutEntryTag(i: PayoutId, p: Payout, e: Entry)
    requires e in PayoutEntries(i, p)
    ensures e.tag == PayoutTag(i, p)
  {
  }

  /** Each ledger entry belongs to one existing row and is what that row calls for. */
  lemma EntryExplained(db: Db, k: nat)
    requires Booked(db) && k < |db.ledger|
    ensures ExplainedByPayment(db, db.ledger[k]) || ExplainedByPayout(db, db.ledger[k])
  {
    var e := db.ledger[k];
    assert e in multiset(db.ledger);
    if e in PaymentsBooked(db.dues, db.duePayments) {
      var i :| 0 <= i < |db.duePayments| && PaymentsBooked(db.dues, db.duePayments)[i] == e;
    } else {
      assert e in PayoutsBooked(db.payouts);
      BookedByPayout(db, e);
    }
  }

  lemma BookedByPayout(db: Db, e: Entry)
    requires e in PayoutsBooked(db.payouts)
    ensures ExplainedByPayout(db, e)
  {
    FlattenOrigin(EntriesByPayout(db.payouts), e);
    var i :| 0 <= i < |db.payouts| && e in EntriesByPayout(db.payouts)[i];
    PayoutEntryTag(i, db.payouts[i], e);
  }

  /** A key no row calls for yet is free, so the write goes through. */
  lemma NewKeyIsFree(db: Db, e: Entry)
    requires Booked(db)
    requires e.tag.duePaymentId.Some? ==> e.tag.duePaymentId.value >= |db.duePayments|
    requires e.tag.payoutId.Some? ==>
      || e.tag.payoutId.value >= |db.payouts|
      || (e.kind.PayoutReversal? && !PayoutRestored(db.payouts[e.tag.payoutId.value].status))
    ensures Post(db.ledger, e) == db.ledger + [e]
  {
    forall k | 0 <= k < |db.ledger| ensures !SameKey(db.ledger[k], e) {
      EntryExplained(db, k);
    }
  }

  // ----------------------------------------------------- growing the books

  lemma CreditKeepsNotOverdrawn(ledger: seq<Entry>, e: Entry)
    requires NotOverdrawn(ledger) && e.direction.Credit? && 0 <= e.amountKobo
    ensures NotOverdrawn(ledger + [e])
  {
    forall s: SpaceId ensures 0 <= SpaceBalance(ledger + [e], s) {
      assert 0 <= SpaceBalance(ledger, s);
      NetAppend(ledger, e, On(InSpace(s)));
    }
    forall s: SpaceId, d: DueId ensures 0 <= DueNet(ledger + [e], s, d) {
      assert 0 <= DueNet(ledger, s, d);
      NetAppend(ledger, e, On(OfDue(s, Some(d))));
    }
  }

  /** Writing a due payment together with its credit. */
  function AddPayment(db: Db, dp: DuePayment): Db {
    db.(duePayments := db.duePayments + [dp],
        ledger := Post(db.ledger, PaymentEntry(db.dues, |db.duePayments|, dp)))
  }

  predicate AlreadyPaid(dps: seq<DuePayment>, user: UserId, due: DueId) {
    exists i :: 0 <= i < |dps| && dps[i].userId == user && dps[i].dueId == due
  }

  lemma AddPaymentKeepsBooked(db: Db, dp: DuePayment)
    requires Booked(db) && KeysUnique(db.ledger) && PaymentOk(db.dues, dp)
    ensures AddPayment(db, dp).ledger == db.ledger + [PaymentEntry(db.dues, |db.duePayments|, dp)]
    ensures Acceptable(PaymentEntry(db.dues, |db.duePayments|, dp))
    ensures Booked(AddPayment(db, dp)) && KeysUnique(AddPayment(db, dp).ledger)
  {
    var e := PaymentEntry(db.dues, |db.duePayments|, dp);
    NewKeyIsFree(db, e);
    PostIsIdempotent(db.ledger, e);
    PaymentsBookedGrow(db.dues, db.duePayments, dp);
  }

  lemma PaymentsBookedGrow(dues: seq<Due>, dps: seq<DuePayment>, dp: DuePayment)
    ensures PaymentsBooked(dues, dps + [dp]) == PaymentsBooked(dues, dps) + [PaymentEntry(dues, |dps|, dp)]
  {
  }

  lemma AddPaymentKeepsSound(db: Db, dp: DuePayment)
    requires Sound(db) && PaymentOk(db.dues, dp) && !AlreadyPaid(db.duePayments, dp.userId, dp.dueId)
    ensures Sound(AddPayment(db, dp))
    ensures AddPayment(db, dp).ledger == db.ledger + [PaymentEntry(db.dues, |db.duePayments|, dp)]
    ensures Acceptable(PaymentEntry(db.dues, |db.duePayments|, dp))
  {
    AddPaymentKeepsBooked(db, dp);
    CreditKeepsNotOverdrawn(db.ledger, PaymentEntry(db.dues, |db.duePayments|, dp));
  }

  lemma Regroup(a: seq<Entry>, b: seq<Entry>, extra: seq<Entry>, rest: seq<Entry>)
    requires multiset(b) == multiset(a) + multiset(extra)
    ensures multiset(b + rest) == multiset(a + rest) + multiset(extra)
    ensures multiset(rest + b) == multiset(rest + a) + multiset(extra)
  {
  }

  lemma {:induction false} FlattenUpdate(lists: seq<seq<Entry>>, i: nat, x: seq<Entry>, extra: seq<Entry>)
    requires i < |lists| && multiset(x) == multiset(lists[i]) + multiset(extra)
    ensures multiset(Flatten(lists[i := x])) == multiset(Flatten(lists)) + multiset(extra)
  {
    var n, lists' := |lists| - 1, lists[i := x];
    if i == n {
      assert lists'[..n] == lists[..n];
      Regroup(lists[n], x, extra, Flatten(lists[..n]));
    } else {
      assert lists'[..n] == lists[..n][i := x];
      FlattenUpdate(lists[..n], i, x, extra);
      Regroup(Flatten(lists[..n]), Flatten(lists'[..n]), extra, lists[n]);
    }
  }

  lemma BookedAfterStatus(payouts: seq<Payout>, i: PayoutId, p: Payout, extra: seq<Entry>)
    requires i < |payouts| && PayoutEntries(i, p) == PayoutEntries(i, payouts[i]) + extra
    ensures multiset(PayoutsBooked(payouts[i := p])) == multiset(PayoutsBooked(payouts)) + multiset(extra)
  {
    var lists := EntriesByPayout(payouts);
    FlattenUpdate(lists, i, PayoutEntries(i, p), extra);
    assert EntriesByPayout(payouts[i := p]) == lists[i := PayoutEntries(i, p)];
  }

  lemma BookedAfterAdding(payouts: seq<Payout>, p: Payout)
    ensures PayoutsBooked(payouts + [p]) == PayoutsBooked(payouts) + PayoutEntries(|payouts|, p)
  {
    assert EntriesByPayout(payouts + [p])[..|payouts|] == EntriesByPayout(payouts);
  }

  /** A status write touches nothing else on the row. */
  predicate SameTerms(o: Payout, p: Payout) {
    p == o.(status := p.status, activeSpaceId := p.activeSpaceId, approvalExpiresAt := p.approvalExpiresAt)
  }

  lemma RowsAfterStatus(db: Db, i: PayoutId, p: Payout)
    requires RowsOk(db) && OneInFlight(db.payouts) && i < |db.payouts| && SameTerms(db.payouts[i], p)
    requires PayoutActive(p.status) ==> PayoutActive(db.payouts[i].status)
    requires p.activeSpaceId == if PayoutActive(p.status) then Some(p.spaceId) else None
    ensures RowsOk(db.(payouts := db.payouts[i := p])) && OneInFlight(db.payouts[i := p])
  {
    var payouts' := db.payouts[i := p];
    forall k: PayoutId | k < |payouts'| ensures PayoutOk(db.dues, payouts'[k]) {
      assert PayoutOk(db.dues, db.payouts[k]);
    }
    forall j, k | 0 <= j < k < |payouts'| ensures !BothInFlight(payouts'[j], payouts'[k]) {
      assert !BothInFlight(db.payouts[j], db.payouts[k]);
    }
  }

  /** Moving a payout's status without closing it leaves the books alone. */
  lemma StatusKeepsSound(db: Db, i: PayoutId, p: Payout)
    requires Sound(db) && i < |db.payouts| && SameTerms(db.payouts[i], p)
    requires !PayoutRestored(p.status) && !PayoutRestored(db.payouts[i].status)
    requires PayoutActive(p.status) ==> PayoutActive(db.payouts[i].status)
    requires p.activeSpaceId == if PayoutActive(p.status) then Some(p.spaceId) else None
    ensures Sound(db.(payouts := db.payouts[i := p]))
  {
    RowsAfterStatus(db, i, p);
    assert PayoutEntries(i, p) == PayoutEntries(i, db.payouts[i]) + [];
    BookedAfterStatus(db.payouts, i, p, []);
  }

  lemma ReversalIsNew(db: Db, i: PayoutId)
    requires Sound(db) && i < |db.payouts| && !PayoutRestored(db.payouts[i].status)
    ensures var e := ReversalEntry(i, db.payouts[i]);
      && Post(db.ledger, e) == db.ledger + [e] && Acceptable(e)
      && KeysUnique(db.ledger + [e]) && NotOverdrawn(db.ledger + [e])
  {
    var e := ReversalEntry(i, db.payouts[i]);
    assert PayoutOk(db.dues, db.payouts[i]);
    NewKeyIsFree(db, e);
    PostIsIdempotent(db.ledger, e);
    CreditKeepsNotOverdrawn(db.ledger, e);
  }

  lemma ReversalIsCalledFor(i: PayoutId, o: Payout, p: Payout)
    requires SameTerms(o, p) && PayoutRestored(p.status) && !PayoutRestored(o.status)
    ensures PayoutEntries(i, p) == PayoutEntries(i, o) + [ReversalEntry(i, o)]
  {
  }

  /** Closing a withdrawal and crediting its whole gross back, in one transaction. */
  function Restore(db: Db, i: PayoutId, closed: Payout): Db
    requires i < |db.payouts|
  {
    db.(payouts := db.payouts[i := closed], ledger := Post(db.ledger, ReversalEntry(i, db.payouts[i])))
  }

  lemma RestoreKeepsBooked(db: Db, i: PayoutId, p: Payout)
    requires Sound(db) && i < |db.payouts| && SameTerms(db.payouts[i], p)
    requires PayoutRestored(p.status) && !PayoutRestored(db.payouts[i].status)
    ensures Booked(Restore(db, i, p)) && KeysUnique(Restore(db, i, p).ledger) && NotOverdrawn(Restore(db, i, p).ledger)
  {
    ReversalIsNew(db, i);
    ReversalIsCalledFor(i, db.payouts[i], p);
    BookedAfterStatus(db.payouts, i, p, [ReversalEntry(i, db.payouts[i])]);
  }

  lemma RestoreKeepsSound(db: Db, i: PayoutId, p: Payout)
    requires Sound(db) && i < |db.payouts| && SameTerms(db.payouts[i], p)
    requires PayoutRestored(p.status) && p.activeSpaceId.None? && !PayoutRestored(db.payouts[i].status)
    ensures Sound(Restore(db, i, p))
  {
    RestoreKeepsBooked(db, i, p);
    RowsAfterStatus(db, i, p);
  }

  /** What a new withdrawal writes. */
  function Debited(ledger: seq<Entry>, i: PayoutId, p: Payout): seq<Entry> {
    var l := Post(ledger, DebitEntry(i, p));
    if p.feeKobo == 0 then l else Post(l, FeeEntry(i, p))
  }

  /** Writing a withdrawal together with its debits. */
  function AddPayout(db: Db, p: Payout): Db {
    db.(payouts := db.payouts + [p], ledger := Debited(db.ledger, |db.payouts|, p))
  }

  lemma DebitedExactly(db: Db, p: Payout)
    requires Booked(db) && KeysUnique(db.ledger) && PayoutOk(db.dues, p) && !PayoutRestored(p.status)
    ensures var i := |db.payouts|;
      && Debited(db.ledger, i, p) == db.ledger + PayoutEntries(i, p)
      && KeysUnique(Debited(db.ledger, i, p))
      && Acceptable(DebitEntry(i, p))
      && (p.feeKobo != 0 ==> Acceptable(FeeEntry(i, p)))
  {
    DebitKeyIsFree(db, p);
    if p.feeKobo != 0 {
      FeeKeyIsFree(db, p);
      PostIsIdempotent(db.ledger + [DebitEntry(|db.payouts|, p)], FeeEntry(|db.payouts|, p));
    }
  }

  lemma DebitKeyIsFree(db: Db, p: Payout)
    requires Booked(db) && KeysUnique(db.ledger)
    ensures var d := DebitEntry(|db.payouts|, p); Post(db.ledger, d) == db.ledger + [d] && KeysUnique(db.ledger + [d])
  {
    NewKeyIsFree(db, DebitEntry(|db.payouts|, p));
    PostIsIdempotent(db.ledger, DebitEntry(|db.payouts|, p));
  }

  lemma FeeKeyIsFree(db: Db, p: Payout)
    requires Booked(db)
    ensures !Conflicts(db.ledger + [DebitEntry(|db.payouts|, p)], FeeEntry(|db.payouts|, p))
  {
    forall k | 0 <= k < |db.ledger| ensures !SameKey(db.ledger[k], FeeEntry(|db.payouts|, p)) {
      EntryExplained(db, k);
    }
  }

  /** A new withdrawal takes exactly its gross, from its space and its due and nothing else. */
  lemma DebitTakesGross(ledger: seq<Entry>, i: PayoutId, p: Payout, t: Tag -> bool)
    requires !PayoutRestored(p.status) && p.amount == p.netKobo + p.feeKobo
    ensures Net(ledger + PayoutEntries(i, p), On(t)) == Net(ledger, On(t)) - if t(PayoutTag(i, p)) then p.amount else 0
  {
    NetAppend(ledger, DebitEntry(i, p), On(t));
    if p.feeKobo == 0 {
      assert ledger + PayoutEntries(i, p) == ledger + [DebitEntry(i, p)];
    } else {
      assert ledger + PayoutEntries(i, p) == (ledger + [DebitEntry(i, p)]) + [FeeEntry(i, p)];
      NetAppend(ledger + [DebitEntry(i, p)], FeeEntry(i, p), On(t));
    }
  }

  lemma DebitKeepsNotOverdrawn(ledger: seq<Entry>, i: PayoutId, p: Payout)
    requires NotOverdrawn(ledger) && !PayoutRestored(p.status) && p.amount == p.netKobo + p.feeKobo
    requires p.amount <= SpaceBalance(ledger, p.spaceId)
    requires p.dueId.Some? ==> p.amount <= DueNet(ledger, p.spaceId, p.dueId.value)
    ensures NotOverdrawn(ledger + PayoutEntries(i, p))
  {
    var l := ledger + PayoutEntries(i, p);
    forall s: SpaceId ensures 0 <= SpaceBalance(l, s) {
      assert 0 <= SpaceBalance(ledger, s);
      DebitTakesGross(ledger, i, p, InSpace(s));
    }
    forall s: SpaceId, d: DueId ensures 0 <= DueNet(l, s, d) {
      assert 0 <= DueNet(ledger, s, d);
      DebitTakesGross(ledger, i, p, OfDue(s, Some(d)));
    }
  }

  lemma RowsAfterAdding(db: Db, p: Payout)
    requires RowsOk(db) && OneInFlight(db.payouts) && PayoutOk(db.dues, p)
    requires forall i :: 0 <= i < |db.payouts| && PayoutActive(db.payouts[i].status) ==> db.payouts[i].spaceId != p.spaceId
    ensures RowsOk(AddPayout(db, p)) && OneInFlight(AddPayout(db, p).payouts)
  {
  }

  lemma AddPayoutKeepsBooked(db: Db, p: Payout)
    requires Booked(db) && KeysUnique(db.ledger) && PayoutOk(db.dues, p) && !PayoutRestored(p.status)
    ensures KeysUnique(AddPayout(db, p).ledger) && Booked(AddPayout(db, p))
  {
    DebitedExactly(db, p);
    BookedAfterAdding(db.payouts, p);
  }

  lemma AddPayoutKeepsSound(db: Db, p: Payout)
    requires Sound(db) && PayoutOk(db.dues, p) && PayoutActive(p.status)
    requires forall i :: 0 <= i < |db.payouts| && PayoutActive(db.payouts[i].status) ==> db.payouts[i].spaceId != p.spaceId
    requires p.amount <= SpaceBalance(db.ledger, p.spaceId)
    requires p.dueId.Some? ==> p.amount <= DueNet(db.ledger, p.spaceId, p.dueId.value)
    ensures Sound(AddPayout(db, p))
  {
    AddPayoutKeepsBooked(db, p);
    RowsAfterAdding(db, p);
    DebitsNotOverdrawn(db, p);
  }

  lemma DebitsNotOverdrawn(db: Db, p: Payout)
    requires Booked(db) && KeysUnique(db.ledger) && NotOverdrawn(db.ledger) && PayoutOk(db.dues, p) && !PayoutRestored(p.status)
    requires p.amount <= SpaceBalance(db.ledger, p.spaceId)
    requires p.dueId.Some? ==> p.amount <= DueNet(db.ledger, p.spaceId, p.dueId.value)
    ensures NotOverdrawn(AddPayout(db, p).ledger)
  {
    DebitedExactly(db, p);
    DebitKeepsNotOverdrawn(db.ledger, |db.payouts|, p);
  }

  /** Dues may be added, and edited in anything but their space. */
  predicate SameSpaces(dues: seq<Due>, dues': seq<Due>) {
    |dues| <= |dues'| && forall d: DueId :: d < |dues| ==> dues'[d].spaceId == dues[d].spaceId
  }

  lemma PaymentsBookedFrame(dues: seq<Due>, dues': seq<Due>, dps: seq<DuePayment>)
    requires SameSpaces(dues, dues')
    requires forall i: DuePaymentId :: i < |dps| ==> dps[i].dueId < |dues|
    ensures PaymentsBooked(dues', dps) == PaymentsBooked(dues, dps)
  {
  }

  lemma DuesKeepSound(db: Db, dues': seq<Due>)
    requires Sound(db) && SameSpaces(db.dues, dues') && forall d: DueId :: d < |dues'| ==> DueOk(dues'[d])
    ensures Sound(db.(dues := dues'))
  {
    forall i: DuePaymentId | i < |db.duePayments| ensures PaymentOk(dues', db.duePayments[i]) && db.duePayments[i].dueId < |db.dues| {
      assert PaymentOk(db.dues, db.duePayments[i]);
    }
    forall i: PayoutId | i < |db.payouts| ensures PayoutOk(dues', db.payouts[i]) {
      assert PayoutOk(db.dues, db.payouts[i]);
    }
    PaymentsBookedFrame(db.dues, dues', db.duePayments);
  }
}
