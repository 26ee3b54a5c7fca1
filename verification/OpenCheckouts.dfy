/** A student's open checkouts never ask twice for the same due (src/services/checkout.service.ts:180-303). */
module OpenCheckouts {
  import opened Wrappers
  import opened Sorting
  import opened StateMachine
  import opened Tables
  import opened Checkouts
  import opened Settlement
  import opened CheckoutFacts

  predicate ShareDue(a: Checkout, b: Checkout) {
    exists i, j :: 0 <= i < |a.items| && 0 <= j < |b.items| && a.items[i].dueId == b.items[j].dueId
  }

  /** Two open checkouts of one student for the same due. */
  predicate Clash(a: Checkout, b: Checkout, now: Time) {
    a.userId == b.userId && IsOpen(a, now) && IsOpen(b, now) && ShareDue(a, b)
  }

  ghost predicate Disjoint(checkouts: seq<Checkout>, now: Time) {
    forall a, b {:trigger Clash(checkouts[a], checkouts[b], now)} ::
      0 <= a < |checkouts| && 0 <= b < |checkouts| && a != b ==> !Clash(checkouts[a], checkouts[b], now)
  }

  ghost predicate ClashesElsewhere(checkouts: seq<Checkout>, c: CheckoutId, co: Checkout, now: Time) {
    exists x :: 0 <= x < |checkouts| && x != c && Clash(checkouts[x], co, now)
  }

  /** Rewriting one row keeps the others apart, and the whole apart exactly when the new row
      clashes with none of the others. */
  lemma RewriteIsDisjoint(checkouts: seq<Checkout>, c: CheckoutId, co: Checkout, now: Time)
    requires Disjoint(checkouts, now) && c < |checkouts|
    ensures Disjoint(checkouts[c := co], now) <==> !ClashesElsewhere(checkouts, c, co, now)
  {
    var after := checkouts[c := co];
    if Disjoint(after, now) {
      forall x | 0 <= x < |checkouts| && x != c ensures !Clash(checkouts[x], co, now) {
        assert !Clash(after[x], after[c], now);
      }
    }
    if !ClashesElsewhere(checkouts, c, co, now) {
      forall a, b | 0 <= a < |after| && 0 <= b < |after| && a != b ensures !Clash(after[a], after[b], now) {
        if a != c && b != c {
          assert !Clash(checkouts[a], checkouts[b], now);
        } else if b == c {
          assert !Clash(checkouts[a], co, now);
        } else {
          assert !Clash(checkouts[b], co, now);
        }
      }
    }
  }

  /** A write that neither reopens a row nor gives it more time or other dues. */
  lemma ClosingKeepsDisjoint(checkouts: seq<Checkout>, c: CheckoutId, co: Checkout, now: Time)
    requires Disjoint(checkouts, now) && c < |checkouts|
    requires SameBasket(checkouts[c], co) && (IsOpen(co, now) ==> IsOpen(checkouts[c], now))
    ensures Disjoint(checkouts[c := co], now)
  {
    forall x | 0 <= x < |checkouts| && x != c ensures !Clash(checkouts[x], co, now) {
      assert !Clash(checkouts[x], checkouts[c], now);
    }
    RewriteIsDisjoint(checkouts, c, co, now);
  }

  /** The provider's account replaces the provisional expiry. Open checkouts stay apart exactly
      unless a checkout that had already lapsed is given new time while another open checkout
      of the student asks for one of its dues. */
  lemma OpeningIsDisjoint(db: Db, c: CheckoutId, chargeId: Option<nat>, expiresAt: Time, now: Time)
    requires Disjoint(db.checkouts, now) && c < |db.checkouts|
    ensures Disjoint(OpenAccountTx(db, c, chargeId, expiresAt).checkouts, now)
       <==> !(db.checkouts[c].status == CheckoutPending && db.checkouts[c].expiresAt <= now < expiresAt
              && exists x :: 0 <= x < |db.checkouts| && x != c && db.checkouts[x].userId == db.checkouts[c].userId
                             && IsOpen(db.checkouts[x], now) && ShareDue(db.checkouts[x], db.checkouts[c]))
  {
    var o := db.checkouts[c];
    var co := o.(providerChargeId := chargeId, expiresAt := expiresAt);
    RewriteIsDisjoint(db.checkouts, c, co, now);
    if o.status == CheckoutPending && expiresAt > now {
      if o.expiresAt > now {
        ClosingKeepsDisjoint(db.checkouts, c, co, now);
      } else {
        forall x | 0 <= x < |db.checkouts| && x != c
          ensures Clash(db.checkouts[x], co, now)
             <==> db.checkouts[x].userId == o.userId && IsOpen(db.checkouts[x], now) && ShareDue(db.checkouts[x], o)
        {
        }
      }
    }
  }

  lemma LaterIsDisjoint(checkouts: seq<Checkout>, now: Time, later: Time)
    requires Disjoint(checkouts, now) && now <= later
    ensures Disjoint(checkouts, later)
  {
    forall a, b | 0 <= a < |checkouts| && 0 <= b < |checkouts| && a != b ensures !Clash(checkouts[a], checkouts[b], later) {
      assert !Clash(checkouts[a], checkouts[b], now);
    }
  }

  /** What a new basket's dues are, seen from its lines. */
  lemma NewItems(db: Db, req: CheckoutRequest)
    requires CreateTx(db, req).Ok? && !CreateTx(db, req).value.reused
    ensures var db' := CreateTx(db, req).value.db;
      && |db'.checkouts| == |db.checkouts| + 1 && db'.checkouts[..|db.checkouts|] == db.checkouts
      && db'.checkouts[|db.checkouts|].userId == req.userId
      && DueIds(db'.checkouts[|db.checkouts|].items) == Dedupe(req.dueIds)
      && OpenOverlaps(db.checkouts, req.userId, Dedupe(req.dueIds), req.now) == []
  {
  }

  /** The locked section of a new checkout keeps them apart. */
  lemma CreateKeepsDisjoint(db: Db, req: CheckoutRequest)
    requires Disjoint(db.checkouts, req.now) && CreateTx(db, req).Ok?
    ensures Disjoint(CreateTx(db, req).value.db.checkouts, req.now)
  {
    var r := CreateTx(db, req).value;
    if !r.reused {
      NewItems(db, req);
      var co := r.db.checkouts[|db.checkouts|];
      forall x: CheckoutId | x < |db.checkouts| ensures !Clash(db.checkouts[x], co, req.now) && !Clash(co, db.checkouts[x], req.now) {
        NewBasketSharesNothing(db, x, co, Dedupe(req.dueIds), req);
      }
      AppendIsDisjoint(db.checkouts, co, req.now);
      assert r.db.checkouts == db.checkouts + [co];
    }
  }

  lemma AppendIsDisjoint(checkouts: seq<Checkout>, co: Checkout, now: Time)
    requires Disjoint(checkouts, now)
    requires forall x: CheckoutId :: x < |checkouts| ==> !Clash(checkouts[x], co, now) && !Clash(co, checkouts[x], now)
    ensures Disjoint(checkouts + [co], now)
  {
    var after, n := checkouts + [co], |checkouts|;
    forall a, b | 0 <= a < |after| && 0 <= b < |after| && a != b ensures !Clash(after[a], after[b], now) {
      if a < n && b < n { assert !Clash(checkouts[a], checkouts[b], now); }
    }
  }

  lemma NewBasketSharesNothing(db: Db, x: CheckoutId, co: Checkout, ids: seq<DueId>, req: CheckoutRequest)
    requires x < |db.checkouts| && DueIds(co.items) == ids && co.userId == req.userId
    requires OpenOverlaps(db.checkouts, req.userId, ids, req.now) == []
    ensures !Clash(db.checkouts[x], co, req.now) && !Clash(co, db.checkouts[x], req.now)
  {
    assert x !in OpenOverlaps(db.checkouts, req.userId, ids, req.now);
    var o := db.checkouts[x];
    if o.userId == req.userId && IsOpen(o, req.now) {
      assert !Touches(o, ids);
      forall i, j | 0 <= i < |o.items| && 0 <= j < |co.items| ensures o.items[i].dueId != co.items[j].dueId {
        assert DueIds(co.items)[j] in ids;
      }
    }
  }

  // ------------------------------------------------------------- asking again

  /** The checkout asks for exactly these dues. */
  ghost predicate AsksFor(co: Checkout, ids: seq<DueId>) {
    forall d: DueId :: d in DueIds(co.items) <==> d in ids
  }

  lemma SameKeyIsSameDues(db: Db, c: CheckoutId, ids: seq<DueId>)
    requires Baskets(db) && c < |db.checkouts| && Distinct(ids)
    ensures db.checkouts[c].dueSetKey == DueSetKey(ids) <==> AsksFor(db.checkouts[c], ids)
  {
    assert BasketOk(db.dues, db.checkouts[c]);
    KeyIffSameDues(DueIds(db.checkouts[c].items), ids);
  }

  lemma AskersTouch(db: Db, c: CheckoutId, ids: seq<DueId>)
    requires Baskets(db) && c < |db.checkouts| && AsksFor(db.checkouts[c], ids)
    ensures Touches(db.checkouts[c], ids)
  {
    var co := db.checkouts[c];
    assert BasketOk(db.dues, co);
    assert DueIds(co.items)[0] == co.items[0].dueId;
    assert co.items[0].dueId in DueIds(co.items);
  }

  lemma AskerShares(o: Checkout, co: Checkout, ids: seq<DueId>)
    requires Touches(o, ids) && AsksFor(co, ids)
    ensures ShareDue(o, co)
  {
    var k :| 0 <= k < |o.items| && o.items[k].dueId in ids;
    assert o.items[k].dueId in DueIds(co.items);
    var j :| 0 <= j < |co.items| && DueIds(co.items)[j] == o.items[k].dueId;
  }

  lemma OneAsker(db: Db, c: CheckoutId, x: CheckoutId, user: UserId, ids: seq<DueId>, now: Time)
    requires Disjoint(db.checkouts, now) && c < |db.checkouts| && x < |db.checkouts|
    requires OpenOverlap(db.checkouts[c], user, ids, now) && AsksFor(db.checkouts[c], ids)
    requires OpenOverlap(db.checkouts[x], user, ids, now)
    ensures x == c
  {
    AskerShares(db.checkouts[x], db.checkouts[c], ids);
    assert Clash(db.checkouts[x], db.checkouts[c], now);
  }

  /** Asking again for the same dues, in any order and with repeats, returns the open checkout
      that asks for exactly them, and nothing else does. */
  lemma RepeatReturnsTheOpenCheckout(db: Db, req: CheckoutRequest, c: CheckoutId)
    requires Baskets(db) && Disjoint(db.checkouts, req.now) && SelectionError(db, req).None? && c < |db.checkouts|
    ensures CreateTx(db, req) == Ok(Created(db, c, true))
       <==> db.checkouts[c].userId == req.userId && db.checkouts[c].status == CheckoutPending && req.now < db.checkouts[c].expiresAt
            && AsksFor(db.checkouts[c], req.dueIds)
  {
    var ids := Dedupe(req.dueIds);
    DedupeCorrect(req.dueIds);
    var open := OpenOverlaps(db.checkouts, req.userId, ids, req.now);
    var found := FindSame(db.checkouts, open, DueSetKey(ids));
    if found.Some? { SameKeyIsSameDues(db, found.value, ids); }
    if AsksFor(db.checkouts[c], ids) && db.checkouts[c].userId == req.userId && IsOpen(db.checkouts[c], req.now) {
      AskersTouch(db, c, ids);
      assert c in open;
      SameKeyIsSameDues(db, c, ids);
      OneAsker(db, c, found.value, req.userId, ids, req.now);
    }
    assert AsksFor(db.checkouts[c], ids) <==> AsksFor(db.checkouts[c], req.dueIds);
  }

  /** An open checkout of the student that asks for one of the requested dues. */
  ghost predicate InTheWay(co: Checkout, req: CheckoutRequest) {
    && co.userId == req.userId && co.status == CheckoutPending && req.now < co.expiresAt
    && exists k :: 0 <= k < |co.items| && co.items[k].dueId in req.dueIds
  }

  lemma InTheWayOverlaps(co: Checkout, req: CheckoutRequest)
    ensures InTheWay(co, req) <==> OpenOverlap(co, req.userId, Dedupe(req.dueIds), req.now)
  {
    DedupeCorrect(req.dueIds);
    if InTheWay(co, req) {
      var k :| 0 <= k < |co.items| && co.items[k].dueId in req.dueIds;
      assert co.items[k].dueId in Dedupe(req.dueIds);
    }
  }

  ghost predicate SomeInTheWay(db: Db, req: CheckoutRequest) {
    exists c: CheckoutId :: c < |db.checkouts| && InTheWay(db.checkouts[c], req)
  }

  ghost predicate NoneAsks(db: Db, req: CheckoutRequest) {
    forall c: CheckoutId :: c < |db.checkouts| && InTheWay(db.checkouts[c], req) ==> !AsksFor(db.checkouts[c], req.dueIds)
  }

  /** A request is turned away as overlapping exactly when an open checkout of the student has
      some of its dues but none has exactly them. */
  lemma OverlapRefusedExactly(db: Db, req: CheckoutRequest)
    requires Baskets(db) && SelectionError(db, req).None?
    ensures CreateTx(db, req) == Err(CheckoutOverlap) <==> SomeInTheWay(db, req) && NoneAsks(db, req)
  {
    var ids := Dedupe(req.dueIds);
    DedupeCorrect(req.dueIds);
    var open := OpenOverlaps(db.checkouts, req.userId, ids, req.now);
    var found := FindSame(db.checkouts, open, DueSetKey(ids));
    forall c: CheckoutId | c < |db.checkouts|
      ensures AsksFor(db.checkouts[c], ids) <==> AsksFor(db.checkouts[c], req.dueIds)
      ensures db.checkouts[c].dueSetKey == DueSetKey(ids) <==> AsksFor(db.checkouts[c], ids)
      ensures InTheWay(db.checkouts[c], req) <==> c in open
    {
      SameKeyIsSameDues(db, c, ids);
      InTheWayOverlaps(db.checkouts[c], req);
    }
    if open != [] { assert open[0] in open; }
  }

  /** With nothing in the way a new checkout is made, unless the amount is out of range or the reference
      drawn for it is taken. */
  lemma NothingInTheWay(db: Db, req: CheckoutRequest)
    requires SelectionError(db, req).None? && !SomeInTheWay(db, req)
    ensures Known(db.dues, Dedupe(req.dueIds))
    ensures var tooMuch := Sums.Sum(Amounts(db.dues, Dedupe(req.dueIds))) > 9_007_199_254_740_991;
      var taken := req.reference in db.txns || exists c: CheckoutId :: c < |db.checkouts| && db.checkouts[c].reference == req.reference;
      && (CreateTx(db, req) == Err(AmountOutOfRange) <==> tooMuch)
      && (CreateTx(db, req) == Err(NoReference) <==> !tooMuch && taken)
      && (CreateTx(db, req).Ok? <==> !tooMuch && !taken)
      && (CreateTx(db, req).Ok? ==> !CreateTx(db, req).value.reused)
  {
    var ids := Dedupe(req.dueIds);
    var open := OpenOverlaps(db.checkouts, req.userId, ids, req.now);
    if open != [] {
      assert open[0] in open;
      InTheWayOverlaps(db.checkouts[open[0]], req);
    }
    Sums.SumNonNegative(Amounts(db.dues, ids));
    Money.CheckoutFeeMeans(Sums.Sum(Amounts(db.dues, ids)));
  }
}
