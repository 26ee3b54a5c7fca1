/** What a fulfilled checkout writes, in closed form, and what every checkout row keeps. */
module Settlement {
  import opened Wrappers
  import opened Money
  import opened Sorting
  import opened Sums
  import opened Tables
  import opened Ledger
  import opened Books
  import opened Checkouts

  // ---------------------------------------------------------- the basket itself

  function Faces(items: seq<Item>): (r: seq<int>)
    ensures |r| == |items| && forall i :: 0 <= i < |r| ==> r[i] == items[i].faceKobo
  {
    seq(|items|, i requires 0 <= i < |items| => items[i].faceKobo)
  }

  function Fees(items: seq<Item>): (r: seq<int>)
    ensures |r| == |items| && forall i :: 0 <= i < |r| ==> r[i] == items[i].feeKobo
  {
    seq(|items|, i requires 0 <= i < |items| => items[i].feeKobo)
  }

  /** The lines add up: faces to the face, fee shares to the fee, both to the total asked. */
  ghost predicate BasketOk(dues: seq<Due>, co: Checkout) {
    && CanSettle(dues, co)
    && 0 < |co.items| <= MAX_DUES_PER_CHECKOUT
    && co.faceKobo == Sum(Faces(co.items)) && co.feeKobo == Sum(Fees(co.items))
    && co.totalKobo == co.faceKobo + co.feeKobo && 0 < co.faceKobo && 0 <= co.feeKobo
    && co.dueSetKey == DueSetKey(DueIds(co.items))
  }

  lemma {:induction false} DedupeCorrect(ids: seq<DueId>)
    ensures Distinct(Dedupe(ids))
    ensures forall d: DueId :: d in Dedupe(ids) <==> d in ids
  {
    if ids != [] {
      DedupeCorrect(ids[..|ids| - 1]);
      assert ids == ids[..|ids| - 1] + [ids[|ids| - 1]];
    }
  }

  /** A due keeps the place of its first occurrence: what is asked later only adds to the end. */
  lemma {:induction false} DedupeKeepsOrder(ids: seq<DueId>, n: nat)
    requires n <= |ids|
    ensures Dedupe(ids[..n]) <= Dedupe(ids)
  {
    if n < |ids| {
      DedupeKeepsOrder(ids[..|ids| - 1], n);
      assert ids[..|ids| - 1][..n] == ids[..n];
    } else {
      assert ids[..n] == ids;
    }
  }

  lemma AtMostIsTotal()
    ensures TotalOrder(AtMost)
  {
  }

  /** Two baskets have the same key exactly when they hold the same dues, in whatever order. */
  lemma KeyIffSameDues(a: seq<DueId>, b: seq<DueId>)
    requires Distinct(a) && Distinct(b)
    ensures DueSetKey(a) == DueSetKey(b) <==> forall d: DueId :: d in a <==> d in b
  {
    AtMostIsTotal();
    SortCorrect(AtMost, a);
    SortCorrect(AtMost, b);
    if DueSetKey(a) == DueSetKey(b) {
      SortKeepsDistinct(AtMost, a);
      SortKeepsDistinct(AtMost, b);
    }
    if forall d: DueId :: d in a <==> d in b {
      DistinctIsMultiplicity(a);
      DistinctIsMultiplicity(b);
      forall d: DueId ensures multiset(a)[d] == multiset(b)[d] {
        assert d in multiset(a) <==> d in a;
        assert d in multiset(b) <==> d in b;
      }
      assert multiset(a) == multiset(b);
      SortedUnique(AtMost, DueSetKey(a), DueSetKey(b));
    }
  }

  lemma AmountsAddUp(dues: seq<Due>, ids: seq<DueId>)
    requires Known(dues, ids) && ids != [] && forall d: DueId :: d < |dues| ==> DueOk(dues[d])
    ensures 0 < Sum(Amounts(dues, ids))
  {
    var amounts := Amounts(dues, ids);
    SumNonNegative(amounts);
    assert DueOk(dues[ids[0]]);
    assert 0 < amounts[0] <= Sum(amounts);
  }

  /** A new checkout charges one fee on the whole basket and loses none of it in the lines. */
  lemma NewBasketOk(dues: seq<Due>, req: CheckoutRequest, ids: seq<DueId>, fee: nat)
    requires Known(dues, ids) && Distinct(ids) && 0 < |ids| <= MAX_DUES_PER_CHECKOUT
    requires forall d: DueId :: d < |dues| ==> DueOk(dues[d])
    requires forall i :: 0 <= i < |ids| ==> dues[ids[i]].spaceId == dues[ids[0]].spaceId
    ensures BasketOk(dues, NewCheckout(req, dues[ids[0]].spaceId, ids, Amounts(dues, ids), fee))
  {
    var amounts := Amounts(dues, ids);
    var co := NewCheckout(req, dues[ids[0]].spaceId, ids, amounts, fee);
    AmountsAddUp(dues, ids);
    ApportionedCorrect(fee, amounts);
    assert Faces(co.items) == amounts;
    assert Fees(co.items) == Apportioned(fee, amounts);
    assert DueIds(co.items) == ids;
    forall i | 0 <= i < |co.items| ensures 0 < co.items[i].faceKobo && IsSafeInteger(co.items[i].faceKobo) && 0 <= co.items[i].feeKobo {
      assert DueOk(dues[ids[i]]);
    }
  }

  // ------------------------------------------------------------ the closed form

  /** The lines nobody had paid before. */
  function Unpaid(items: seq<Item>, user: UserId, seen: seq<DuePayment>): seq<Item>
    decreases |items|
  {
    if items == [] then []
    else (if AlreadyPaid(seen, user, items[0].dueId) then [] else [items[0]]) + Unpaid(items[1..], user, seen)
  }

  function Lines(c: CheckoutId, co: Checkout, unpaid: seq<Item>, link: Option<Reference>): (r: seq<DuePayment>)
    ensures |r| == |unpaid| && forall k :: 0 <= k < |r| ==> r[k] == LineFor(c, co, unpaid[k], if k == 0 then link else None)
  {
    seq(|unpaid|, k requires 0 <= k < |unpaid| => LineFor(c, co, unpaid[k], if k == 0 then link else None))
  }

  function Credits(dues: seq<Due>, from: nat, lines: seq<DuePayment>): (r: seq<Entry>)
    ensures |r| == |lines| && forall k :: 0 <= k < |r| ==> r[k] == PaymentEntry(dues, from + k, lines[k])
  {
    seq(|lines|, k requires 0 <= k < |lines| => PaymentEntry(dues, from + k, lines[k]))
  }

  ghost predicate ItemsOk(dues: seq<Due>, items: seq<Item>) {
    && (forall i :: 0 <= i < |items| ==>
          items[i].dueId < |dues| && 0 < items[i].faceKobo && IsSafeInteger(items[i].faceKobo) && 0 <= items[i].feeKobo)
    && (forall i, j :: 0 <= i < j < |items| ==> items[i].dueId != items[j].dueId)
  }

  /** `seen` is what the tables already said about these lines. */
  ghost predicate SeenCurrent(dps: seq<DuePayment>, user: UserId, items: seq<Item>, seen: seq<DuePayment>) {
    forall i :: 0 <= i < |items| ==> (AlreadyPaid(dps, user, items[i].dueId) <==> AlreadyPaid(seen, user, items[i].dueId))
  }

  lemma SeenStaysCurrent(dps: seq<DuePayment>, user: UserId, items: seq<Item>, seen: seq<DuePayment>, dp: DuePayment)
    requires SeenCurrent(dps, user, items, seen) && items != []
    requires forall i :: 0 < i < |items| ==> items[i].dueId != dp.dueId
    ensures SeenCurrent(dps + [dp], user, items[1..], seen)
  {
    forall i | 0 <= i < |items[1..]|
      ensures AlreadyPaid(dps + [dp], user, items[1..][i].dueId) <==> AlreadyPaid(seen, user, items[1..][i].dueId)
    {
      var d := items[i + 1].dueId;
      assert AlreadyPaid(dps, user, d) <==> AlreadyPaid(seen, user, d);
      if AlreadyPaid(dps, user, d) {
        var k :| 0 <= k < |dps| && dps[k].userId == user && dps[k].dueId == d;
        assert (dps + [dp])[k] == dps[k];
      }
    }
  }

  /** One line paid: the books stay sound, and what was seen is still current for the lines left. */
  lemma OneLineKeepsSound(db: Db, c: CheckoutId, co: Checkout, items: seq<Item>, link: Option<Reference>, seen: seq<DuePayment>)
    requires Sound(db) && ItemsOk(db.dues, items) && SeenCurrent(db.duePayments, co.userId, items, seen)
    requires items != [] && !AlreadyPaid(seen, co.userId, items[0].dueId)
    ensures var after := AddPayment(db, LineFor(c, co, items[0], link));
      && Sound(after) && after.dues == db.dues && ItemsOk(db.dues, items[1..])
      && SeenCurrent(after.duePayments, co.userId, items[1..], seen)
  {
    var dp := LineFor(c, co, items[0], link);
    LineIsPayable(db, c, co, items, link, seen);
    AddPaymentKeepsSound(db, dp);
    SkippedLine(db.dues, db.duePayments, co.userId, items, seen);
    SeenStaysCurrent(db.duePayments, co.userId, items, seen, dp);
  }

  lemma LineIsPayable(db: Db, c: CheckoutId, co: Checkout, items: seq<Item>, link: Option<Reference>, seen: seq<DuePayment>)
    requires ItemsOk(db.dues, items) && SeenCurrent(db.duePayments, co.userId, items, seen)
    requires items != [] && !AlreadyPaid(seen, co.userId, items[0].dueId)
    ensures PaymentOk(db.dues, LineFor(c, co, items[0], link)) && !AlreadyPaid(db.duePayments, co.userId, items[0].dueId)
    ensures forall i :: 0 < i < |items| ==> items[i].dueId != items[0].dueId
  {
  }

  lemma SkippedLine(dues: seq<Due>, dps: seq<DuePayment>, user: UserId, items: seq<Item>, seen: seq<DuePayment>)
    requires ItemsOk(dues, items) && SeenCurrent(dps, user, items, seen) && items != []
    ensures ItemsOk(dues, items[1..]) && SeenCurrent(dps, user, items[1..], seen)
  {
  }

  /** Settling keeps the books, line by line. */
  lemma {:induction false} SettleKeepsSound(db: Db, c: CheckoutId, co: Checkout, items: seq<Item>, link: Option<Reference>, seen: seq<DuePayment>)
    requires Sound(db) && ItemsOk(db.dues, items) && SeenCurrent(db.duePayments, co.userId, items, seen)
    ensures Sound(SettleLines(db, c, co, items, link, seen))
    decreases |items|
  {
    if items != [] {
      if AlreadyPaid(seen, co.userId, items[0].dueId) {
        SkippedLine(db.dues, db.duePayments, co.userId, items, seen);
        SettleKeepsSound(db, c, co, items[1..], link, seen);
      } else {
        OneLineKeepsSound(db, c, co, items, link, seen);
        SettleKeepsSound(AddPayment(db, LineFor(c, co, items[0], link)), c, co, items[1..], None, seen);
      }
    }
  }

  /** The tables after these payments and their credits, and nothing else, were written. */
  function Wrote(db: Db, lines: seq<DuePayment>): Db {
    db.(duePayments := db.duePayments + lines, ledger := db.ledger + Credits(db.dues, |db.duePayments|, lines))
  }

  lemma WroteNothing(db: Db)
    ensures Wrote(db, []) == db
  {
    assert db.duePayments + [] == db.duePayments;
    assert db.ledger + Credits(db.dues, |db.duePayments|, []) == db.ledger;
  }

  lemma WroteOneMore(db: Db, dp: DuePayment, tail: seq<DuePayment>)
    ensures Wrote(Wrote(db, [dp]), tail) == Wrote(db, [dp] + tail)
  {
    assert db.duePayments + [dp] + tail == db.duePayments + ([dp] + tail);
    assert Credits(db.dues, |db.duePayments|, [dp] + tail)
        == Credits(db.dues, |db.duePayments|, [dp]) + Credits(db.dues, |db.duePayments| + 1, tail);
  }

  lemma WroteOne(db: Db, dp: DuePayment)
    requires Sound(db) && PaymentOk(db.dues, dp)
    ensures AddPayment(db, dp) == Wrote(db, [dp])
  {
    AddPaymentKeepsBooked(db, dp);
    assert Credits(db.dues, |db.duePayments|, [dp]) == [PaymentEntry(db.dues, |db.duePayments|, dp)];
  }

  lemma FirstLine(c: CheckoutId, co: Checkout, it: Item, rest: seq<Item>, link: Option<Reference>)
    ensures Lines(c, co, [it] + rest, link) == [LineFor(c, co, it, link)] + Lines(c, co, rest, None)
  {
  }

  /** Settling writes exactly one payment and one credit for each line nobody had paid, in
      order, the first carrying the transaction link; and touches nothing else. */
  lemma {:induction false} SettleWritesUnpaidLines(db: Db, c: CheckoutId, co: Checkout, items: seq<Item>, link: Option<Reference>, seen: seq<DuePayment>)
    requires Sound(db) && ItemsOk(db.dues, items) && SeenCurrent(db.duePayments, co.userId, items, seen)
    ensures SettleLines(db, c, co, items, link, seen) == Wrote(db, Lines(c, co, Unpaid(items, co.userId, seen), link))
    decreases |items|, 0
  {
    if items == [] {
      WroteNothing(db);
      assert Lines(c, co, [], link) == [];
    } else if AlreadyPaid(seen, co.userId, items[0].dueId) {
      SettleWritesUnpaidLines(db, c, co, items[1..], link, seen);
      assert Unpaid(items, co.userId, seen) == Unpaid(items[1..], co.userId, seen);
    } else {
      SettleFirst(db, c, co, items, link, seen);
    }
  }

  lemma OneLine(db: Db, c: CheckoutId, co: Checkout, items: seq<Item>, link: Option<Reference>, seen: seq<DuePayment>)
    requires items != [] && !AlreadyPaid(seen, co.userId, items[0].dueId)
    ensures SettleLines(db, c, co, items, link, seen)
         == SettleLines(AddPayment(db, LineFor(c, co, items[0], link)), c, co, items[1..], None, seen)
    ensures Unpaid(items, co.userId, seen) == [items[0]] + Unpaid(items[1..], co.userId, seen)
  {
  }

  lemma {:induction false} SettleFirst(db: Db, c: CheckoutId, co: Checkout, items: seq<Item>, link: Option<Reference>, seen: seq<DuePayment>)
    requires Sound(db) && ItemsOk(db.dues, items) && SeenCurrent(db.duePayments, co.userId, items, seen)
    requires items != [] && !AlreadyPaid(seen, co.userId, items[0].dueId)
    ensures SettleLines(db, c, co, items, link, seen) == Wrote(db, Lines(c, co, Unpaid(items, co.userId, seen), link))
    decreases |items| - 1, 2
  {
    var dp, rest := LineFor(c, co, items[0], link), Unpaid(items[1..], co.userId, seen);
    calc {
      SettleLines(db, c, co, items, link, seen);
      { OneLine(db, c, co, items, link, seen); }
      SettleLines(AddPayment(db, dp), c, co, items[1..], None, seen);
      { SettleRest(db, c, co, items, link, seen); }
      Wrote(AddPayment(db, dp), Lines(c, co, rest, None));
      { WroteOne(db, dp); }
      Wrote(Wrote(db, [dp]), Lines(c, co, rest, None));
      { WroteOneMore(db, dp, Lines(c, co, rest, None)); }
      Wrote(db, [dp] + Lines(c, co, rest, None));
      { FirstLine(c, co, items[0], rest, link); OneLine(db, c, co, items, link, seen); }
      Wrote(db, Lines(c, co, Unpaid(items, co.userId, seen), link));
    }
  }

  lemma {:induction false} SettleRest(db: Db, c: CheckoutId, co: Checkout, items: seq<Item>, link: Option<Reference>, seen: seq<DuePayment>)
    requires Sound(db) && ItemsOk(db.dues, items) && SeenCurrent(db.duePayments, co.userId, items, seen)
    requires items != [] && !AlreadyPaid(seen, co.userId, items[0].dueId)
    ensures var dp := LineFor(c, co, items[0], link);
      SettleLines(AddPayment(db, dp), c, co, items[1..], None, seen)
      == Wrote(AddPayment(db, dp), Lines(c, co, Unpaid(items[1..], co.userId, seen), None))
    decreases |items| - 1, 1
  {
    OneLineKeepsSound(db, c, co, items, link, seen);
    SettleWritesUnpaidLines(AddPayment(db, LineFor(c, co, items[0], link)), c, co, items[1..], None, seen);
  }

  lemma {:induction false} UnpaidMembers(items: seq<Item>, user: UserId, seen: seq<DuePayment>, it: Item)
    ensures it in Unpaid(items, user, seen) <==> it in items && !AlreadyPaid(seen, user, it.dueId)
    decreases |items|
  {
    if items != [] {
      UnpaidMembers(items[1..], user, seen, it);
      assert items == [items[0]] + items[1..];
    }
  }

  /** Afterwards every line of the basket is paid, once, for this student. */
  lemma SettleCoversBasket(db: Db, c: CheckoutId, co: Checkout, link: Option<Reference>, k: nat)
    requires Sound(db) && CanSettle(db.dues, co) && k < |co.items|
    ensures AlreadyPaid(SettleLines(db, c, co, co.items, link, db.duePayments).duePayments, co.userId, co.items[k].dueId)
  {
    SettleWritesUnpaidLines(db, c, co, co.items, link, db.duePayments);
    LinesCoverBasket(db.duePayments, c, co, link, k);
  }

  lemma LinesCoverBasket(dps: seq<DuePayment>, c: CheckoutId, co: Checkout, link: Option<Reference>, k: nat)
    requires k < |co.items|
    ensures AlreadyPaid(dps + Lines(c, co, Unpaid(co.items, co.userId, dps), link), co.userId, co.items[k].dueId)
  {
    var it, unpaid := co.items[k], Unpaid(co.items, co.userId, dps);
    var all := dps + Lines(c, co, unpaid, link);
    if AlreadyPaid(dps, co.userId, it.dueId) {
      var x :| 0 <= x < |dps| && dps[x].userId == co.userId && dps[x].dueId == it.dueId;
      assert all[x] == dps[x];
    } else {
      UnpaidMembers(co.items, co.userId, dps, it);
      var x :| 0 <= x < |unpaid| && unpaid[x] == it;
      assert all[|dps| + x] == Lines(c, co, unpaid, link)[x];
    }
  }

  function AmountsPaid(lines: seq<DuePayment>): (r: seq<int>)
    ensures |r| == |lines| && forall k :: 0 <= k < |r| ==> r[k] == lines[k].amountPaid
  {
    seq(|lines|, k requires 0 <= k < |lines| => lines[k].amountPaid)
  }

  /** Face and fee share of the lines together are what their payments record as paid. */
  lemma {:induction false} LinesAddUp(c: CheckoutId, co: Checkout, items: seq<Item>, link: Option<Reference>)
    ensures Sum(AmountsPaid(Lines(c, co, items, link))) == Sum(Faces(items)) + Sum(Fees(items))
  {
    if items != [] {
      var n := |items| - 1;
      LinesAddUp(c, co, items[..n], link);
      assert Lines(c, co, items, link)[..n] == Lines(c, co, items[..n], link);
      assert AmountsPaid(Lines(c, co, items, link))[..n] == AmountsPaid(Lines(c, co, items[..n], link));
      assert Faces(items)[..n] == Faces(items[..n]) && Fees(items)[..n] == Fees(items[..n]);
    }
  }

  /** When nobody had paid any of the dues, the payments a fulfilment records add up to exactly
      the total the checkout asked for. */
  lemma PaymentsAddUpToTotal(dues: seq<Due>, dps: seq<DuePayment>, c: CheckoutId, co: Checkout, link: Option<Reference>)
    requires BasketOk(dues, co)
    requires forall i :: 0 <= i < |co.items| ==> !AlreadyPaid(dps, co.userId, co.items[i].dueId)
    ensures Sum(AmountsPaid(Lines(c, co, Unpaid(co.items, co.userId, dps), link))) == co.totalKobo
  {
    NothingPaidBefore(co.items, co.userId, dps);
    LinesAddUp(c, co, co.items, link);
    TotalIsFacesAndFees(dues, co);
  }

  lemma TotalIsFacesAndFees(dues: seq<Due>, co: Checkout)
    requires BasketOk(dues, co)
    ensures co.totalKobo == Sum(Faces(co.items)) + Sum(Fees(co.items))
  {
  }

  lemma {:induction false} CreditsNet(dues: seq<Due>, from: nat, lines: seq<DuePayment>, t: Tag -> bool)
    ensures Net(Credits(dues, from, lines), On(t)) == NetOfLines(dues, from, lines, t)
  {
    if lines != [] {
      var n := |lines| - 1;
      CreditsNet(dues, from, lines[..n], t);
      assert Credits(dues, from, lines)[..n] == Credits(dues, from, lines[..n]);
    }
  }

  function NetOfLines(dues: seq<Due>, from: nat, lines: seq<DuePayment>, t: Tag -> bool): int {
    if lines == [] then 0
    else
      var n := |lines| - 1;
      NetOfLines(dues, from, lines[..n], t) + if t(PaymentTag(dues, from + n, lines[n])) then lines[n].netToSpace else 0
  }

  lemma {:induction false} LinesAllInSpace(dues: seq<Due>, from: nat, c: CheckoutId, co: Checkout, unpaid: seq<Item>, link: Option<Reference>, s: SpaceId)
    requires forall k :: 0 <= k < |unpaid| ==> SpaceOfDue(dues, unpaid[k].dueId) == co.spaceId
    ensures NetOfLines(dues, from, Lines(c, co, unpaid, link), InSpace(s)) == if s == co.spaceId then Sum(Faces(unpaid)) else 0
  {
    if unpaid != [] {
      var n := |unpaid| - 1;
      LinesAllInSpace(dues, from, c, co, unpaid[..n], link, s);
      assert Lines(c, co, unpaid, link)[..n] == Lines(c, co, unpaid[..n], link);
      assert Faces(unpaid)[..n] == Faces(unpaid[..n]);
    }
  }

  /** A payment credits the space the full face of the lines it settles, whatever fee was
      charged on top, and no other space anything. */
  lemma PaymentCreditsFaceValue(db: Db, c: CheckoutId, received: int, overpaid: int, chargeId: Option<nat>, now: Time, s: SpaceId)
    requires Sound(db) && c < |db.checkouts| && CanSettle(db.dues, db.checkouts[c])
    requires FulfilOutcomeOf(db, c, received) == PaidNow
    ensures var co := db.checkouts[c];
      SpaceBalance(FulfilTx(db, c, received, overpaid, chargeId, now).ledger, s)
      == SpaceBalance(db.ledger, s) + if s == co.spaceId then Sum(Faces(Unpaid(co.items, co.userId, db.duePayments))) else 0
  {
    var co := db.checkouts[c];
    var unpaid, link := Unpaid(co.items, co.userId, db.duePayments), LinkFor(db, co);
    var lines := Lines(c, co, unpaid, link);
    SettleWritesUnpaidLines(db, c, co, co.items, link, db.duePayments);
    NetConcat(db.ledger, Credits(db.dues, |db.duePayments|, lines), On(InSpace(s)));
    CreditsNet(db.dues, |db.duePayments|, lines, InSpace(s));
    forall k | 0 <= k < |unpaid| ensures SpaceOfDue(db.dues, unpaid[k].dueId) == co.spaceId {
      UnpaidMembers(co.items, co.userId, db.duePayments, unpaid[k]);
    }
    LinesAllInSpace(db.dues, |db.duePayments|, c, co, unpaid, link, s);
  }

  lemma {:induction false} NothingPaidBefore(items: seq<Item>, user: UserId, seen: seq<DuePayment>)
    requires forall i :: 0 <= i < |items| ==> !AlreadyPaid(seen, user, items[i].dueId)
    ensures Unpaid(items, user, seen) == items
    decreases |items|
  {
    if items != [] {
      NothingPaidBefore(items[1..], user, seen);
      assert items == [items[0]] + items[1..];
    }
  }
}
