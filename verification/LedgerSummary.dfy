/** A space's lifetime figures (src/services/ledger.service.ts:131-168) and what they conserve. */
module LedgerSummary {
  import opened Wrappers
  import opened StateMachine
  import opened Tables
  import opened Ledger
  import opened Books
  import opened Solvency
  import opened Withdrawal

  datatype Summary = Summary(balance: int, collected: int, withdrawn: int, withdrawalFees: int, inFlight: int)

  /** Amounts of one entry type in a space, whatever their direction. */
  function TypeTotal(ledger: seq<Entry>, s: SpaceId, kind: EntryType): int {
    if ledger == [] then 0
    else
      var e := ledger[|ledger| - 1];
      TypeTotal(ledger[..|ledger| - 1], s, kind) + if e.tag.spaceId == s && e.kind == kind then e.amountKobo else 0
  }

  /** A sum over a space's withdrawals. */
  function PayoutSum(payouts: seq<Payout>, s: SpaceId, value: (PayoutId, Payout) -> int): int {
    if payouts == [] then 0
    else
      var i := |payouts| - 1;
      PayoutSum(payouts[..i], s, value) + if payouts[i].spaceId == s then value(i, payouts[i]) else 0
  }

  predicate HasReversal(ledger: seq<Entry>, p: PayoutId) {
    exists k :: 0 <= k < |ledger| && ReversalOf(ledger[k], p)
  }

  function Gross(): (PayoutId, Payout) -> int { (_: PayoutId, p: Payout) => p.amount }

  function ActiveGross(): (PayoutId, Payout) -> int { (_: PayoutId, p: Payout) => if PayoutActive(p.status) then p.amount else 0 }

  function SuccessGross(): (PayoutId, Payout) -> int { (_: PayoutId, p: Payout) => if p.status == Success then p.amount else 0 }

  function ReversedNet(ledger: seq<Entry>): (PayoutId, Payout) -> int {
    (i: PayoutId, p: Payout) => if PayoutRestored(p.status) && HasReversal(ledger, i) then p.netKobo else 0
  }

  function ReversedFee(ledger: seq<Entry>): (PayoutId, Payout) -> int {
    (i: PayoutId, p: Payout) => if PayoutRestored(p.status) && HasReversal(ledger, i) then p.feeKobo else 0
  }

  function SpaceSummary(db: Db, s: SpaceId): Summary {
    var collected := TypeTotal(db.ledger, s, DuePaymentCredit) + TypeTotal(db.ledger, s, ManualCredit);
    Summary(
      collected + TypeTotal(db.ledger, s, PayoutReversal) - TypeTotal(db.ledger, s, PayoutDebit)
        - TypeTotal(db.ledger, s, PayoutFee) - TypeTotal(db.ledger, s, Refund),
      collected,
      TypeTotal(db.ledger, s, PayoutDebit) - PayoutSum(db.payouts, s, ReversedNet(db.ledger)),
      TypeTotal(db.ledger, s, PayoutFee) - PayoutSum(db.payouts, s, ReversedFee(db.ledger)),
      PayoutSum(db.payouts, s, ActiveGross()))
  }

  // ------------------------------------------------------ by type, by direction

  /** What every write is checked for. */
  ghost predicate Directed(ledger: seq<Entry>) {
    forall k :: 0 <= k < |ledger| ==> ledger[k].direction == DirectionOf(ledger[k].kind)
  }

  /** Adding up by entry type gives the same balance as adding up by direction. */
  lemma {:induction false} BalanceByType(ledger: seq<Entry>, s: SpaceId)
    requires Directed(ledger)
    ensures SpaceBalance(ledger, s)
         == TypeTotal(ledger, s, DuePaymentCredit) + TypeTotal(ledger, s, ManualCredit) + TypeTotal(ledger, s, PayoutReversal)
            - TypeTotal(ledger, s, PayoutDebit) - TypeTotal(ledger, s, PayoutFee) - TypeTotal(ledger, s, Refund)
  {
    if ledger != [] {
      BalanceByType(ledger[..|ledger| - 1], s);
      var e := ledger[|ledger| - 1];
      assert e.direction == DirectionOf(e.kind);
    }
  }

  /** An entry with the wrong direction makes the two disagree, so the check at the write is
      what keeps them together. */
  lemma WrongDirectionSplitsTheBalances(ledger: seq<Entry>, e: Entry, s: SpaceId)
    requires Directed(ledger) && e.tag.spaceId == s && e.amountKobo != 0 && e.direction != DirectionOf(e.kind)
    ensures SpaceBalance(ledger + [e], s)
         != TypeTotal(ledger + [e], s, DuePaymentCredit) + TypeTotal(ledger + [e], s, ManualCredit) + TypeTotal(ledger + [e], s, PayoutReversal)
            - TypeTotal(ledger + [e], s, PayoutDebit) - TypeTotal(ledger + [e], s, PayoutFee) - TypeTotal(ledger + [e], s, Refund)
  {
    BalanceByType(ledger, s);
    NetAppend(ledger, e, On(InSpace(s)));
    assert (ledger + [e])[..|ledger|] == ledger;
  }

  lemma BookedIsDirected(db: Db)
    requires Booked(db)
    ensures Directed(db.ledger)
    ensures forall k :: 0 <= k < |db.ledger| ==> db.ledger[k].kind != Refund
  {
    forall k | 0 <= k < |db.ledger| ensures db.ledger[k].direction == DirectionOf(db.ledger[k].kind) && db.ledger[k].kind != Refund {
      EntryExplained(db, k);
    }
  }

  // -------------------------------------------------------------- one type's net

  function OfKind(s: SpaceId, kind: EntryType): Entry -> bool { (e: Entry) => e.kind == kind && e.tag.spaceId == s }

  lemma {:induction false} TypeTotalIsNet(ledger: seq<Entry>, s: SpaceId, kind: EntryType)
    requires Directed(ledger)
    ensures Net(ledger, OfKind(s, kind)) == if DirectionOf(kind) == Credit then TypeTotal(ledger, s, kind) else -TypeTotal(ledger, s, kind)
  {
    if ledger != [] {
      TypeTotalIsNet(ledger[..|ledger| - 1], s, kind);
      assert ledger[|ledger| - 1].direction == DirectionOf(ledger[|ledger| - 1].kind);
    }
  }

  /** What a withdrawal's entries of one type come to. */
  function KindNet(kind: EntryType): (PayoutId, Payout) -> int {
    (_: PayoutId, p: Payout) =>
      match kind
      case PayoutDebit => -p.netKobo
      case PayoutFee => -p.feeKobo
      case PayoutReversal => if PayoutRestored(p.status) then p.amount else 0
      case _ => 0
  }

  lemma OnePayoutKind(i: PayoutId, p: Payout, s: SpaceId, kind: EntryType)
    ensures Net(PayoutEntries(i, p), OfKind(s, kind)) == if p.spaceId == s then KindNet(kind)(i, p) else 0
  {
    var q := OfKind(s, kind);
    var one := [DebitEntry(i, p)];
    var two := one + if p.feeKobo == 0 then [] else [FeeEntry(i, p)];
    var all := two + if PayoutRestored(p.status) then [ReversalEntry(i, p)] else [];
    assert one == [] + [DebitEntry(i, p)];
    NetAppend([], DebitEntry(i, p), q);
    if p.feeKobo != 0 { NetAppend(one, FeeEntry(i, p), q); } else { assert two == one; }
    if PayoutRestored(p.status) { NetAppend(two, ReversalEntry(i, p), q); } else { assert all == two; }
    assert PayoutEntries(i, p) == all;
  }

  lemma {:induction false} PayoutsKind(payouts: seq<Payout>, s: SpaceId, kind: EntryType)
    ensures Net(PayoutsBooked(payouts), OfKind(s, kind)) == PayoutSum(payouts, s, KindNet(kind))
  {
    if payouts != [] {
      var i := |payouts| - 1;
      PayoutsKind(payouts[..i], s, kind);
      BookedAfterAdding(payouts[..i], payouts[i]);
      assert payouts[..i] + [payouts[i]] == payouts;
      NetConcat(PayoutsBooked(payouts[..i]), PayoutEntries(i, payouts[i]), OfKind(s, kind));
      OnePayoutKind(i, payouts[i], s, kind);
    }
  }

  lemma {:induction false} NetOfNone(entries: seq<Entry>, q: Entry -> bool)
    requires forall k :: 0 <= k < |entries| ==> !q(entries[k])
    ensures Net(entries, q) == 0
  {
    if entries != [] { NetOfNone(entries[..|entries| - 1], q); }
  }

  lemma LedgerKind(db: Db, s: SpaceId, kind: EntryType)
    requires Booked(db) && kind in {PayoutDebit, PayoutFee, PayoutReversal}
    ensures Net(db.ledger, OfKind(s, kind)) == PayoutSum(db.payouts, s, KindNet(kind))
  {
    var a, b := PaymentsBooked(db.dues, db.duePayments), PayoutsBooked(db.payouts);
    NetPermutes(db.ledger, a + b, OfKind(s, kind));
    NetConcat(a, b, OfKind(s, kind));
    NetOfNone(a, OfKind(s, kind));
    PayoutsKind(db.payouts, s, kind);
  }

  lemma {:induction false} NoRefunds(ledger: seq<Entry>, s: SpaceId)
    requires forall k :: 0 <= k < |ledger| ==> ledger[k].kind != Refund
    ensures TypeTotal(ledger, s, Refund) == 0
  {
    if ledger != [] { NoRefunds(ledger[..|ledger| - 1], s); }
  }

  // ---------------------------------------------------------------- conservation

  /** If `a + b + c == d + e` for every withdrawal, it does for the sums. */
  lemma {:induction false} SumsBalance(payouts: seq<Payout>, s: SpaceId, a: (PayoutId, Payout) -> int, b: (PayoutId, Payout) -> int,
      c: (PayoutId, Payout) -> int, d: (PayoutId, Payout) -> int, e: (PayoutId, Payout) -> int)
    requires forall i: PayoutId :: i < |payouts| ==> a(i, payouts[i]) + b(i, payouts[i]) + c(i, payouts[i]) == d(i, payouts[i]) + e(i, payouts[i])
    ensures PayoutSum(payouts, s, a) + PayoutSum(payouts, s, b) + PayoutSum(payouts, s, c) == PayoutSum(payouts, s, d) + PayoutSum(payouts, s, e)
  {
    if payouts != [] { SumsBalance(payouts[..|payouts| - 1], s, a, b, c, d, e); }
  }

  function Nothing(): (PayoutId, Payout) -> int { (_: PayoutId, _: Payout) => 0 }

  lemma {:induction false} SumOfNothing(payouts: seq<Payout>, s: SpaceId)
    ensures PayoutSum(payouts, s, Nothing()) == 0
  {
    if payouts != [] { SumOfNothing(payouts[..|payouts| - 1], s); }
  }

  /** What the reversed withdrawals sent and were charged is what their reversals gave back. */
  lemma ReversalsSplit(db: Db, s: SpaceId)
    requires Sound(db)
    ensures PayoutSum(db.payouts, s, ReversedNet(db.ledger)) + PayoutSum(db.payouts, s, ReversedFee(db.ledger))
         == PayoutSum(db.payouts, s, KindNet(PayoutReversal))
  {
    var rn, rf := ReversedNet(db.ledger), ReversedFee(db.ledger);
    forall i: PayoutId | i < |db.payouts|
      ensures rn(i, db.payouts[i]) + rf(i, db.payouts[i]) == KindNet(PayoutReversal)(i, db.payouts[i])
    {
      assert PayoutOk(db.dues, db.payouts[i]);
      ReversalIffRestored(db, i);
    }
    SumsBalance(db.payouts, s, rn, rf, Nothing(), KindNet(PayoutReversal), Nothing());
    SumOfNothing(db.payouts, s);
  }

  /** Debits, restorations and what is in flight account for each withdrawal once. */
  lemma SuccessIsTheRest(db: Db, s: SpaceId)
    requires Sound(db)
    ensures PayoutSum(db.payouts, s, SuccessGross()) + PayoutSum(db.payouts, s, ActiveGross()) + PayoutSum(db.payouts, s, KindNet(PayoutReversal))
         == -PayoutSum(db.payouts, s, KindNet(PayoutDebit)) - PayoutSum(db.payouts, s, KindNet(PayoutFee))
  {
    forall i: PayoutId | i < |db.payouts|
      ensures var p := db.payouts[i];
        SuccessGross()(i, p) + ActiveGross()(i, p) + KindNet(PayoutReversal)(i, p) == Gross()(i, p) + Nothing()(i, p)
      ensures var p := db.payouts[i];
        Gross()(i, p) + KindNet(PayoutDebit)(i, p) + KindNet(PayoutFee)(i, p) == Nothing()(i, p) + Nothing()(i, p)
    {
      assert PayoutOk(db.dues, db.payouts[i]);
    }
    SumsBalance(db.payouts, s, SuccessGross(), ActiveGross(), KindNet(PayoutReversal), Gross(), Nothing());
    SumsBalance(db.payouts, s, Gross(), KindNet(PayoutDebit), KindNet(PayoutFee), Nothing(), Nothing());
    SumOfNothing(db.payouts, s);
  }

  /** The summary conserves money: what was collected is the balance plus everything withdrawn
      and charged; what was withdrawn and charged is the gross of the successful withdrawals
      plus what is in flight; and its balance is the space's derived balance. */
  lemma SummaryConserves(db: Db, s: SpaceId)
    requires Sound(db)
    ensures var r := SpaceSummary(db, s);
      && r.balance == SpaceBalance(db.ledger, s)
      && r.collected == r.balance + r.withdrawn + r.withdrawalFees
      && r.withdrawn + r.withdrawalFees - r.inFlight == PayoutSum(db.payouts, s, SuccessGross())
  {
    BookedIsDirected(db);
    BalanceByType(db.ledger, s);
    NoRefunds(db.ledger, s);
    TypeTotalIsNet(db.ledger, s, PayoutDebit);
    TypeTotalIsNet(db.ledger, s, PayoutFee);
    TypeTotalIsNet(db.ledger, s, PayoutReversal);
    LedgerKind(db, s, PayoutDebit);
    LedgerKind(db, s, PayoutFee);
    LedgerKind(db, s, PayoutReversal);
    ReversalsSplit(db, s);
    SuccessIsTheRest(db, s);
  }

  function KeptNet(): (PayoutId, Payout) -> int { (_: PayoutId, p: Payout) => if PayoutRestored(p.status) then 0 else p.netKobo }

  function KeptFee(): (PayoutId, Payout) -> int { (_: PayoutId, p: Payout) => if PayoutRestored(p.status) then 0 else p.feeKobo }

  lemma KeptIsWhatRemains(db: Db, s: SpaceId)
    requires Sound(db)
    ensures PayoutSum(db.payouts, s, KeptNet()) + PayoutSum(db.payouts, s, ReversedNet(db.ledger)) == -PayoutSum(db.payouts, s, KindNet(PayoutDebit))
    ensures PayoutSum(db.payouts, s, KeptFee()) + PayoutSum(db.payouts, s, ReversedFee(db.ledger)) == -PayoutSum(db.payouts, s, KindNet(PayoutFee))
  {
    forall i: PayoutId | i < |db.payouts| ensures HasReversal(db.ledger, i) <==> PayoutRestored(db.payouts[i].status) {
      ReversalIffRestored(db, i);
    }
    SumsBalance(db.payouts, s, KeptNet(), ReversedNet(db.ledger), KindNet(PayoutDebit), Nothing(), Nothing());
    SumsBalance(db.payouts, s, KeptFee(), ReversedFee(db.ledger), KindNet(PayoutFee), Nothing(), Nothing());
    SumOfNothing(db.payouts, s);
  }

  lemma {:induction false} CollectionsKind(dues: seq<Due>, dps: seq<DuePayment>, s: SpaceId)
    ensures var booked := PaymentsBooked(dues, dps);
      TypeTotal(booked, s, DuePaymentCredit) + TypeTotal(booked, s, ManualCredit) == Collected(dues, dps, InSpace(s))
  {
    if dps != [] {
      var i := |dps| - 1;
      CollectionsKind(dues, dps[..i], s);
      assert PaymentsBooked(dues, dps)[..i] == PaymentsBooked(dues, dps[..i]);
    }
  }

  lemma CollectedIsCredited(db: Db, s: SpaceId)
    requires Booked(db)
    ensures SpaceSummary(db, s).collected == Collected(db.dues, db.duePayments, InSpace(s))
  {
    BookedIsDirected(db);
    CollectionsKind(db.dues, db.duePayments, s);
    CreditKindOnlyPayments(db, s, DuePaymentCredit);
    CreditKindOnlyPayments(db, s, ManualCredit);
  }

  lemma CreditKindOnlyPayments(db: Db, s: SpaceId, kind: EntryType)
    requires Booked(db) && Directed(db.ledger) && kind in {DuePaymentCredit, ManualCredit}
    ensures TypeTotal(db.ledger, s, kind) == TypeTotal(PaymentsBooked(db.dues, db.duePayments), s, kind)
  {
    var a, b := PaymentsBooked(db.dues, db.duePayments), PayoutsBooked(db.payouts);
    NetPermutes(db.ledger, a + b, OfKind(s, kind));
    NetConcat(a, b, OfKind(s, kind));
    PayoutsKind(db.payouts, s, kind);
    NoSuchKind(db.payouts, s, kind);
    TypeTotalIsNet(db.ledger, s, kind);
    TypeTotalIsNet(a, s, kind);
  }

  lemma {:induction false} NoSuchKind(payouts: seq<Payout>, s: SpaceId, kind: EntryType)
    requires kind in {DuePaymentCredit, ManualCredit}
    ensures PayoutSum(payouts, s, KindNet(kind)) == 0
  {
    if payouts != [] { NoSuchKind(payouts[..|payouts| - 1], s, kind); }
  }

  /** Each figure of the summary is what its name says: face value collected, and the net and the
      fees of the withdrawals that were not restored. */
  lemma SummaryFigures(db: Db, s: SpaceId)
    requires Sound(db)
    ensures var r := SpaceSummary(db, s);
      && r.collected == Collected(db.dues, db.duePayments, InSpace(s))
      && r.withdrawn == PayoutSum(db.payouts, s, KeptNet())
      && r.withdrawalFees == PayoutSum(db.payouts, s, KeptFee())
  {
    CollectedIsCredited(db, s);
    BookedIsDirected(db);
    TypeTotalIsNet(db.ledger, s, PayoutDebit);
    TypeTotalIsNet(db.ledger, s, PayoutFee);
    LedgerKind(db, s, PayoutDebit);
    LedgerKind(db, s, PayoutFee);
    KeptIsWhatRemains(db, s);
  }

  lemma {:induction false} NoneActive(payouts: seq<Payout>, s: SpaceId)
    requires forall i :: 0 <= i < |payouts| && payouts[i].spaceId == s ==> !PayoutActive(payouts[i].status)
    ensures PayoutSum(payouts, s, ActiveGross()) == 0
  {
    if payouts != [] { NoneActive(payouts[..|payouts| - 1], s); }
  }

  lemma {:induction false} OneActive(payouts: seq<Payout>, s: SpaceId, p: PayoutId)
    requires OneInFlight(payouts) && p < |payouts| && payouts[p].spaceId == s && PayoutActive(payouts[p].status)
    ensures PayoutSum(payouts, s, ActiveGross()) == payouts[p].amount
  {
    var n := |payouts| - 1;
    if p == n {
      forall i | 0 <= i < n && payouts[i].spaceId == s ensures !PayoutActive(payouts[i].status) {
        assert !BothInFlight(payouts[i], payouts[n]);
      }
      NoneActive(payouts[..n], s);
    } else {
      forall i, j | 0 <= i < j < n ensures !BothInFlight(payouts[..n][i], payouts[..n][j]) {
        assert !BothInFlight(payouts[i], payouts[j]);
      }
      OneActive(payouts[..n], s, p);
      assert !BothInFlight(payouts[p], payouts[n]);
    }
  }

  lemma HolderIsActive(db: Db, s: SpaceId, p: PayoutId)
    requires Sound(db) && p < |db.payouts|
    ensures db.payouts[p].activeSpaceId == Some(s) <==> db.payouts[p].spaceId == s && PayoutActive(db.payouts[p].status)
  {
    assert PayoutOk(db.dues, db.payouts[p]);
  }

  /** What is in flight is the gross of the withdrawal that holds the space, */
  lemma InFlightIsTheHolder(db: Db, s: SpaceId, p: PayoutId)
    requires Sound(db) && p < |db.payouts| && db.payouts[p].activeSpaceId == Some(s)
    ensures SpaceSummary(db, s).inFlight == db.payouts[p].amount
  {
    HolderIsActive(db, s, p);
    OneActive(db.payouts, s, p);
  }

  /** and nothing when none does. */
  lemma NothingInFlight(db: Db, s: SpaceId)
    requires Sound(db) && !InFlight(db.payouts, s)
    ensures SpaceSummary(db, s).inFlight == 0
  {
    forall p: PayoutId | p < |db.payouts| && db.payouts[p].spaceId == s ensures !PayoutActive(db.payouts[p].status) {
      HolderIsActive(db, s, p);
    }
    NoneActive(db.payouts, s);
  }
}
