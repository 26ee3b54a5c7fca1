/** Checkouts over whole runs: at-least-once, reordered and racing reports, exactly-once effects. */
module CheckoutRuns {
  import opened Wrappers
  import opened Money
  import opened StateMachine
  import opened Tables
  import opened Runs
  import opened Books
  import opened Solvency
  import opened Withdrawal
  import opened Checkouts
  import opened Settlement
  import opened CheckoutFacts
  import opened Review
  import opened OpenCheckouts
  import opened Protocol
  import opened PayoutRuns

  // ---------------------------------------------------------------- what moves

  predicate CheckoutMoves(a: CheckoutStatus, b: CheckoutStatus) { a == b || CanTransitionCheckout(a, b) }

  /** A report that covers what the checkout asked for. */
  predicate Covering(step: Step, c: CheckoutId, total: int) {
    step.OnCheckout? && step.c == c && step.act.Fulfil? && step.act.receivedKobo >= total
  }

  lemma ActFrame(db: Db, c: CheckoutId, act: CheckoutMove, now: Time)
    requires c < |db.checkouts|
    ensures var db' := MoveCheckout(db, c, act, now);
      && |db'.checkouts| == |db.checkouts|
      && (forall x: CheckoutId :: x < |db.checkouts| && x != c ==> db'.checkouts[x] == db.checkouts[x])
      && SameBasket(db.checkouts[c], db'.checkouts[c])
      && CheckoutMoves(db.checkouts[c].status, db'.checkouts[c].status)
      && (db'.checkouts[c].status == Paid <==>
            db.checkouts[c].status == Paid || Covering(OnCheckout(c, act), c, db.checkouts[c].totalKobo))
  {
    if act.Fulfil? { FulfilFrame(db, c, act.receivedKobo, act.overpaidKobo, act.chargeId, now); }
  }

  lemma FulfilFrame(db: Db, c: CheckoutId, received: int, overpaid: int, chargeId: Option<nat>, now: Time)
    requires c < |db.checkouts|
    ensures var after := FulfilTx(db, c, received, overpaid, chargeId, now).checkouts;
      && |after| == |db.checkouts| && after == db.checkouts[c := after[c]]
      && SameBasket(db.checkouts[c], after[c])
      && after[c].status == if FulfilOutcomeOf(db, c, received) == Short then db.checkouts[c].status else Paid
  {
  }

  lemma OthersKeepCheckouts(db: Db, step: Step, now: Time)
    requires !step.OnCheckout?
    ensures var db' := Commit(db, step, now);
      |db.checkouts| <= |db'.checkouts| && db'.checkouts[..|db.checkouts|] == db.checkouts
  {
    if step.OnPayout? && step.p < |db.payouts| { PayoutMoveKeepsTables(db, step.p, step.move); }
  }

  /** One step, seen from one checkout. */
  lemma CheckoutStep(sys: Sys, step: Step, c: CheckoutId)
    requires c < |sys.db.checkouts|
    ensures var sys' := Next(sys, step);
      && c < |sys'.db.checkouts| && SameBasket(sys.db.checkouts[c], sys'.db.checkouts[c])
      && CheckoutMoves(sys.db.checkouts[c].status, sys'.db.checkouts[c].status)
      && (sys'.db.checkouts[c].status == Paid <==>
            sys.db.checkouts[c].status == Paid || Covering(step, c, sys.db.checkouts[c].totalKobo))
  {
    if Enabled(sys, step) {
      if step.OnCheckout? {
        if step.c < |sys.db.checkouts| { ActFrame(sys.db, step.c, step.act, sys.now); }
      } else {
        OthersKeepCheckouts(sys.db, step, sys.now);
        assert Commit(sys.db, step, sys.now).checkouts[..|sys.db.checkouts|][c] == sys.db.checkouts[c];
      }
    }
  }

  // ------------------------------------------------------ paid iff it was covered

  ghost predicate Covered(steps: seq<Step>, c: CheckoutId, total: int) {
    exists i :: 0 <= i < |steps| && Covering(steps[i], c, total)
  }

  lemma CoveredSoFar(steps: seq<Step>, c: CheckoutId, total: int)
    requires steps != []
    ensures Covered(steps, c, total) <==> Covered(steps[..|steps| - 1], c, total) || Covering(steps[|steps| - 1], c, total)
  {
    var front := steps[..|steps| - 1];
    if i :| 0 <= i < |front| && Covering(front[i], c, total) { assert steps[i] == front[i]; }
    if i :| 0 <= i < |steps| && Covering(steps[i], c, total) { assert i == |front| || front[i] == steps[i]; }
  }

  /** However its reports arrive, a checkout ends up paid exactly when some report covered
      its total. */
  lemma {:induction false} PaidIffCovered(sys: Sys, steps: seq<Step>, c: CheckoutId)
    requires c < |sys.db.checkouts| && sys.db.checkouts[c].status != Paid
    ensures c < |After(sys, steps).db.checkouts|
    ensures SameBasket(sys.db.checkouts[c], After(sys, steps).db.checkouts[c])
    ensures After(sys, steps).db.checkouts[c].status == Paid <==> Covered(steps, c, sys.db.checkouts[c].totalKobo)
  {
    if steps != [] {
      var front, last, total := steps[..|steps| - 1], steps[|steps| - 1], sys.db.checkouts[c].totalKobo;
      PaidIffCovered(sys, front, c);
      CheckoutStep(After(sys, front), last, c);
      CoveredSoFar(steps, c, total);
    }
  }

  // --------------------------------------------------------- settled, once for all

  /** The payments and the receipt of a checkout are final. */
  ghost predicate Frozen(db: Db, db': Db, c: CheckoutId) {
    && |db.duePayments| <= |db'.duePayments| && db'.duePayments[..|db.duePayments|] == db.duePayments
    && (forall k :: |db.duePayments| <= k < |db'.duePayments| ==> db'.duePayments[k].checkoutId != Some(c))
    && c in db.receipts && c in db'.receipts && db'.receipts[c] == db.receipts[c]
  }

  lemma FrozenTransitive(a: Db, b: Db, d: Db, c: CheckoutId)
    requires Frozen(a, b, c) && Frozen(b, d, c)
    ensures Frozen(a, d, c)
  {
    forall k | |a.duePayments| <= k < |d.duePayments| ensures d.duePayments[k].checkoutId != Some(c) {
      if k < |b.duePayments| { assert d.duePayments[..|b.duePayments|][k] == b.duePayments[k]; }
    }
    assert d.duePayments[..|a.duePayments|] == d.duePayments[..|b.duePayments|][..|a.duePayments|];
  }

  /** Paying another checkout adds no payment to this one. */
  lemma OthersLinesFreeze(db: Db, x: CheckoutId, after: Db, c: CheckoutId)
    requires x < |db.checkouts| && x != c && c in db.receipts
    requires after.duePayments == db.duePayments + NewLines(db, x) && c in after.receipts && after.receipts[c] == db.receipts[c]
    ensures Frozen(db, after, c)
  {
    var n := |db.duePayments|;
    forall k | n <= k < |after.duePayments| ensures after.duePayments[k].checkoutId != Some(c) {
      NewLineFacts(db, x, k - n);
    }
  }

  lemma SameLinesFreeze(db: Db, after: Db, c: CheckoutId)
    requires after.duePayments == db.duePayments && after.receipts == db.receipts && c in db.receipts
    ensures Frozen(db, after, c)
  {
  }

  lemma FulfilFreezes(db: Db, x: CheckoutId, act: CheckoutMove, now: Time, after: Db, c: CheckoutId)
    requires Sound(db) && CheckoutsOk(db) && x < |db.checkouts| && x != c && c in db.receipts
    requires act.Fulfil? && FulfilOutcomeOf(db, x, act.receivedKobo) == PaidNow && after == MoveCheckout(db, x, act, now)
    ensures Frozen(db, after, c)
  {
    FulfilInFull(db, x, act.receivedKobo, act.overpaidKobo, act.chargeId, now);
    OthersLinesFreeze(db, x, after, c);
  }

  lemma ActFreezes(db: Db, x: CheckoutId, act: CheckoutMove, now: Time, after: Db, c: CheckoutId)
    requires Sound(db) && CheckoutsOk(db) && x < |db.checkouts| && after == MoveCheckout(db, x, act, now)
    requires c < |db.checkouts| && db.checkouts[c].status == Paid && c in db.receipts
    ensures Frozen(db, after, c)
  {
    if act.Fulfil? && FulfilOutcomeOf(db, x, act.receivedKobo) == PaidNow {
      FulfilFreezes(db, x, act, now, after, c);
    } else {
      NoPaymentNoLines(db, x, act, now);
      SameLinesFreeze(db, after, c);
    }
  }

  lemma NoPaymentNoLines(db: Db, x: CheckoutId, act: CheckoutMove, now: Time)
    requires x < |db.checkouts| && !(act.Fulfil? && FulfilOutcomeOf(db, x, act.receivedKobo) == PaidNow)
    ensures MoveCheckout(db, x, act, now).duePayments == db.duePayments && MoveCheckout(db, x, act, now).receipts == db.receipts
  {
  }

  /** The steps that are about no checkout write no payment of one. */
  lemma OtherStepsFreeze(db: Db, step: Step, now: Time, after: Db, c: CheckoutId)
    requires !step.OnCheckout? && after == Commit(db, step, now) && c in db.receipts
    ensures Frozen(db, after, c)
  {
    if step.OnPayout? && step.p < |db.payouts| {
      PayoutMoveKeepsTables(db, step.p, step.move);
      SameLinesFreeze(db, after, c);
    }
  }

  lemma CommitFreezes(db: Db, step: Step, now: Time, after: Db, c: CheckoutId)
    requires Sound(db) && CheckoutsOk(db) && after == Commit(db, step, now)
    requires c < |db.checkouts| && db.checkouts[c].status == Paid
    ensures Frozen(db, after, c)
  {
    assert StatusOk(db, c);
    if step.OnCheckout? {
      if step.c < |db.checkouts| { ActFreezes(db, step.c, step.act, now, after, c); }
    } else {
      OtherStepsFreeze(db, step, now, after, c);
    }
  }

  lemma StepFreezes(sys: Sys, step: Step, c: CheckoutId)
    requires Inv(sys) && c < |sys.db.checkouts| && sys.db.checkouts[c].status == Paid
    ensures Frozen(sys.db, Next(sys, step).db, c)
  {
    PaidHasReceipt(sys.db, c);
    if Enabled(sys, step) { CommitFreezes(sys.db, step, sys.now, Next(sys, step).db, c); }
  }

  lemma PaidHasReceipt(db: Db, c: CheckoutId)
    requires Statuses(db) && c < |db.checkouts| && db.checkouts[c].status == Paid
    ensures c in db.receipts
  {
    assert StatusOk(db, c);
  }

  /** Nothing that happens after a checkout is paid adds to what its payment wrote. */
  lemma {:induction false} PaidIsFrozen(sys: Sys, steps: seq<Step>, c: CheckoutId)
    requires Inv(sys) && c < |sys.db.checkouts| && sys.db.checkouts[c].status == Paid
    ensures c < |After(sys, steps).db.checkouts| && After(sys, steps).db.checkouts[c].status == Paid
    ensures Frozen(sys.db, After(sys, steps).db, c)
  {
    if steps == [] {
      assert StatusOk(sys.db, c);
    } else {
      var mid := After(sys, steps[..|steps| - 1]);
      PaidIsFrozen(sys, steps[..|steps| - 1], c);
      RunKeepsInv(sys, steps[..|steps| - 1]);
      CheckoutStep(mid, steps[|steps| - 1], c);
      StepFreezes(mid, steps[|steps| - 1], c);
      FrozenTransitive(sys.db, mid.db, After(sys, steps).db, c);
    }
  }

  /** The checkout has written nothing yet. */
  ghost predicate Untouched(db: Db, c: CheckoutId) {
    c !in db.receipts && forall k :: 0 <= k < |db.duePayments| ==> db.duePayments[k].checkoutId != Some(c)
  }

  lemma NothingYet(db: Db, c: CheckoutId)
    requires CheckoutsOk(db) && c < |db.checkouts| && db.checkouts[c].status != Paid
    ensures Untouched(db, c)
  {
    assert StatusOk(db, c);
    forall k: DuePaymentId | k < |db.duePayments| ensures db.duePayments[k].checkoutId != Some(c) {
      assert OriginOk(db, db.duePayments[k]);
    }
  }

  /** What the first covering report of a checkout leaves behind. */
  ghost predicate SettledBy(before: Db, after: Db, c: CheckoutId, received: int) {
    && c < |before.checkouts| && c < |after.checkouts| && after.checkouts[c].status == Paid
    && after.duePayments == before.duePayments + NewLines(before, c)
    && after.ledger == before.ledger + Credits(before.dues, |before.duePayments|, NewLines(before, c))
    && c in after.receipts && after.receipts[c] == Receipt(received)
  }

  ghost predicate StillUnpaid(sys: Sys, c: CheckoutId) { Inv(sys) && c < |sys.db.checkouts| && sys.db.checkouts[c].status != Paid }

  lemma BeforeCovering(sys: Sys, front: seq<Step>, c: CheckoutId)
    requires StillUnpaid(sys, c)
    requires forall j :: 0 <= j < |front| ==> !Covering(front[j], c, sys.db.checkouts[c].totalKobo)
    ensures StillUnpaid(After(sys, front), c) && After(sys, front).db.checkouts[c].totalKobo == sys.db.checkouts[c].totalKobo
    ensures Untouched(After(sys, front).db, c)
  {
    RunKeepsInv(sys, front);
    PaidIffCovered(sys, front, c);
    NothingYet(After(sys, front).db, c);
  }

  lemma CoveringSettles(sys: Sys, step: Step, c: CheckoutId)
    requires StillUnpaid(sys, c) && Covering(step, c, sys.db.checkouts[c].totalKobo)
    ensures SettledBy(sys.db, Next(sys, step).db, c, step.act.receivedKobo)
  {
    FulfilInFull(sys.db, c, step.act.receivedKobo, step.act.overpaidKobo, step.act.chargeId, sys.now);
  }

  lemma CoveringLasts(sys: Sys, step: Step, rest: seq<Step>, c: CheckoutId)
    requires StillUnpaid(sys, c) && Covering(step, c, sys.db.checkouts[c].totalKobo)
    ensures var after := Next(sys, step); SettledBy(sys.db, after.db, c, step.act.receivedKobo) && Final(after.db, After(after, rest).db, c)
  {
    CoveringSettles(sys, step, c);
    StepKeepsInv(sys, step);
    PaidIsFrozen(Next(sys, step), rest, c);
  }

  ghost predicate Final(after: Db, end: Db, c: CheckoutId) {
    c < |end.checkouts| && end.checkouts[c].status == Paid && Frozen(after, end, c)
  }

  /** Exactly once: before the first covering report a checkout has no payment and no receipt;
      that report writes one payment and one credit for each of its lines nobody had paid, and
      the receipt; and nothing that follows, in any order and any number of times, adds to or
      alters them. */
  lemma FirstCoveringReportDecides(sys: Sys, front: seq<Step>, step: Step, rest: seq<Step>, c: CheckoutId)
    requires StillUnpaid(sys, c) && Covering(step, c, sys.db.checkouts[c].totalKobo)
    requires forall j :: 0 <= j < |front| ==> !Covering(front[j], c, sys.db.checkouts[c].totalKobo)
    ensures Untouched(After(sys, front).db, c)
    ensures SettledBy(After(sys, front).db, After(sys, front + [step]).db, c, step.act.receivedKobo)
    ensures Final(After(sys, front + [step]).db, After(sys, front + [step] + rest).db, c)
  {
    BeforeCovering(sys, front, c);
    CoveringLasts(After(sys, front), step, rest, c);
    RunLast(Next, sys, front, step);
    RunConcat(Next, sys, front + [step], rest);
  }

  /** Whatever checkouts overlap and whatever admins credit by hand, a student is recorded as
      having paid a due at most once, with one credit at its face value in the due's space. */
  lemma OncePerStudentAndDue(sys: Sys, i: DuePaymentId, j: DuePaymentId)
    requires Reachable(sys) && i < |sys.db.duePayments| && j < |sys.db.duePayments|
    requires SamePayment(sys.db.duePayments[i], sys.db.duePayments[j])
    ensures i == j
    ensures var db := sys.db;
      && (exists k :: 0 <= k < |db.ledger| && db.ledger[k] == PaymentEntry(db.dues, i, db.duePayments[i]))
      && (forall k, k' | 0 <= k < |db.ledger| && 0 <= k' < |db.ledger| ::
            (db.ledger[k].tag.duePaymentId == Some(i) && db.ledger[k'].tag.duePaymentId == Some(i)) ==> k == k')
  {
    ReachableKeepsInv(sys);
    assert SamePayment(sys.db.duePayments[j], sys.db.duePayments[i]);
    OneCreditPerPayment(sys.db, i);
  }

  // -------------------------------------------------------- the ledger only grows

  predicate Extends(a: seq<Entry>, b: seq<Entry>) { |a| <= |b| && b[..|a|] == a }

  lemma {:induction false} SettleExtends(db: Db, c: CheckoutId, co: Checkout, items: seq<Item>, link: Option<Reference>, seen: seq<DuePayment>)
    ensures Extends(db.ledger, SettleLines(db, c, co, items, link, seen).ledger)
    decreases |items|
  {
    if items != [] {
      if AlreadyPaid(seen, co.userId, items[0].dueId) {
        SettleExtends(db, c, co, items[1..], link, seen);
      } else {
        var one := AddPayment(db, LineFor(c, co, items[0], link));
        SettleExtends(one, c, co, items[1..], None, seen);
        var end := SettleLines(db, c, co, items, link, seen).ledger;
        assert end[..|db.ledger|] == end[..|one.ledger|][..|db.ledger|];
      }
    }
  }

  lemma CommitExtends(db: Db, step: Step, now: Time, after: Db)
    requires after == Commit(db, step, now)
    ensures Extends(db.ledger, after.ledger)
  {
    match step
    case OnCheckout(c, act) => if c < |db.checkouts| { ActExtends(db, c, act, now, after); }
    case OnPayout(p, move) => if p < |db.payouts| { MoveExtends(db, p, move); }
    case Withdraw(req) =>
      if RequestTx(db, req, now).Ok? {
        DebitsExtend(db.ledger, |db.payouts|, NewPayout(req, ComputeWithdrawal(req.amountKobo, req.discountPercent).value, now));
      }
    case _ =>
  }

  lemma MoveExtends(db: Db, p: PayoutId, move: PayoutMove)
    requires p < |db.payouts|
    ensures Extends(db.ledger, MovePayout(db, p, move).ledger)
  {
  }

  lemma DebitsExtend(ledger: seq<Entry>, i: PayoutId, p: Payout)
    ensures Extends(ledger, Debited(ledger, i, p))
  {
  }

  lemma ActExtends(db: Db, c: CheckoutId, act: CheckoutMove, now: Time, after: Db)
    requires c < |db.checkouts| && after == MoveCheckout(db, c, act, now)
    ensures Extends(db.ledger, after.ledger)
  {
    if act.Fulfil? {
      var co := db.checkouts[c];
      SettleExtends(db, c, co, co.items, LinkFor(db, co), db.duePayments);
    }
  }

  lemma StepExtends(sys: Sys, step: Step)
    ensures Extends(sys.db.ledger, Next(sys, step).db.ledger)
  {
    if Enabled(sys, step) { CommitExtends(sys.db, step, sys.now, Next(sys, step).db); }
  }

  /** No step rewrites or removes a ledger entry. */
  lemma {:induction false} LedgerOnlyGrows(sys: Sys, steps: seq<Step>)
    ensures Extends(sys.db.ledger, After(sys, steps).db.ledger)
  {
    if steps != [] {
      var mid, end := After(sys, steps[..|steps| - 1]).db.ledger, After(sys, steps).db.ledger;
      LedgerOnlyGrows(sys, steps[..|steps| - 1]);
      StepExtends(After(sys, steps[..|steps| - 1]), steps[|steps| - 1]);
      assert end[..|sys.db.ledger|] == end[..|mid|][..|sys.db.ledger|];
    }
  }

  // ----------------------------------------------------------------------- review

  predicate Resolves(step: Step) { step.OnCheckout? && step.act.Resolve? }

  ghost predicate ReviewKept(db: Db, after: Db) { AllReviewed(after) && FlagsStay(db, after) }

  lemma ActKeepsReview(db: Db, c: CheckoutId, act: CheckoutMove, now: Time, after: Db)
    requires Sound(db) && CheckoutsOk(db) && AllReviewed(db) && c < |db.checkouts| && !act.Resolve?
    requires after == MoveCheckout(db, c, act, now)
    ensures ReviewKept(db, after)
  {
    match act
    case Fulfil(received, overpaid, chargeId) => FulfilKeepsReview(db, c, received, overpaid, chargeId, now);
    case OpenAccount(chargeId, expiresAt) => NotesKeepReview(db, c, 0, now, chargeId, expiresAt);
    case ShortPayment(received) => NotesKeepReview(db, c, received, now, None, 0);
    case Expire => NotesKeepReview(db, c, 0, now, None, 0);
  }

  lemma UntouchedKeepsReview(db: Db, after: Db)
    requires AllReviewed(db) && after.checkouts == db.checkouts && after.duePayments == db.duePayments
    ensures ReviewKept(db, after)
  {
    forall c: CheckoutId | c < |after.checkouts| ensures ReviewOk(after, c) {
      assert ReviewOk(db, c);
    }
  }

  lemma OthersKeepReview(db: Db, step: Step, now: Time, after: Db)
    requires AllReviewed(db) && Payments(db) && !step.OnCheckout? && after == Commit(db, step, now)
    ensures ReviewKept(db, after)
  {
    match step
    case NewBasket(req) =>
      if CreateTx(db, req.(now := now)).Ok? { CreateKeepsReview(db, req.(now := now)); } else { UntouchedKeepsReview(db, after); }
    case CreditByHand(user, due, payee, reference) =>
      if ManualCreditTx(db, user, due, payee, reference).Ok? {
        CreditKeepsReview(db, user, due, payee, reference);
      } else {
        UntouchedKeepsReview(db, after);
      }
    case OnPayout(p, move) =>
      if p < |db.payouts| { PayoutMoveKeepsTables(db, p, move); }
      UntouchedKeepsReview(db, after);
    case _ => UntouchedKeepsReview(db, after);
  }

  lemma CommitKeepsReview(db: Db, step: Step, now: Time, after: Db)
    requires Sound(db) && CheckoutsOk(db) && AllReviewed(db) && !Resolves(step) && after == Commit(db, step, now)
    ensures ReviewKept(db, after)
  {
    if !step.OnCheckout? {
      OthersKeepReview(db, step, now, after);
    } else if step.c < |db.checkouts| {
      ActKeepsReview(db, step.c, step.act, now, after);
    }
  }

  /** No unexplained money: as long as no admin resolves a review, every checkout whose money
      needs explaining is flagged, and no flag is ever lowered. */
  lemma {:induction false} NoUnexplainedMoney(sys: Sys, steps: seq<Step>)
    requires Inv(sys) && AllReviewed(sys.db) && forall i :: 0 <= i < |steps| ==> !Resolves(steps[i])
    ensures AllReviewed(After(sys, steps).db) && FlagsStay(sys.db, After(sys, steps).db)
  {
    if steps != [] {
      var front := steps[..|steps| - 1];
      NoUnexplainedMoney(sys, front);
      RunKeepsInv(sys, front);
      StepKeepsReview(After(sys, front), steps[|steps| - 1]);
      FlagsCompose(sys.db, After(sys, front).db, After(sys, steps).db);
    }
  }

  lemma StepKeepsReview(sys: Sys, step: Step)
    requires Inv(sys) && AllReviewed(sys.db) && !Resolves(step)
    ensures ReviewKept(sys.db, Next(sys, step).db)
  {
    if Enabled(sys, step) { CommitKeepsReview(sys.db, step, sys.now, Next(sys, step).db); }
  }

  lemma FlagsCompose(a: Db, b: Db, d: Db)
    requires FlagsStay(a, b) && FlagsStay(b, d)
    ensures FlagsStay(a, d)
  {
  }

  // ------------------------------------------------------------- open checkouts

  /** An account opens before its checkout's provisional expiry, if the checkout is still open
      at all. */
  ghost predicate OpensInTime(sys: Sys, step: Step) {
    step.OnCheckout? && step.c < |sys.db.checkouts| && step.act.OpenAccount? && sys.db.checkouts[step.c].status == CheckoutPending
    ==> sys.now < sys.db.checkouts[step.c].expiresAt
  }

  lemma ActKeepsDisjoint(db: Db, c: CheckoutId, act: CheckoutMove, now: Time)
    requires Disjoint(db.checkouts, now) && c < |db.checkouts|
    requires act.OpenAccount? && db.checkouts[c].status == CheckoutPending ==> now < db.checkouts[c].expiresAt
    ensures Disjoint(MoveCheckout(db, c, act, now).checkouts, now)
  {
    ActFrame(db, c, act, now);
    var after := MoveCheckout(db, c, act, now).checkouts;
    if act.OpenAccount? {
      OpeningIsDisjoint(db, c, act.chargeId, act.expiresAt, now);
    } else {
      ClosingKeepsDisjoint(db.checkouts, c, after[c], now);
      assert after == db.checkouts[c := after[c]];
    }
  }

  lemma CommitKeepsDisjoint(db: Db, step: Step, now: Time, after: Db)
    requires !step.OnCheckout? && after == Commit(db, step, now) && Disjoint(db.checkouts, now)
    ensures Disjoint(after.checkouts, now)
  {
    match step
    case NewBasket(req) => if CreateTx(db, req.(now := now)).Ok? { CreateKeepsDisjoint(db, req.(now := now)); }
    case OnPayout(p, move) => if p < |db.payouts| { PayoutMoveKeepsTables(db, p, move); }
    case _ =>
  }

  lemma StepKeepsDisjoint(sys: Sys, step: Step)
    requires Disjoint(sys.db.checkouts, sys.now) && OpensInTime(sys, step)
    ensures Disjoint(Next(sys, step).db.checkouts, Next(sys, step).now)
  {
    if Enabled(sys, step) {
      if step.OnCheckout? {
        if step.c < |sys.db.checkouts| { ActKeepsDisjoint(sys.db, step.c, step.act, sys.now); }
      } else {
        CommitKeepsDisjoint(sys.db, step, sys.now, Next(sys, step).db);
        LaterIsDisjoint(Next(sys, step).db.checkouts, sys.now, Next(sys, step).now);
      }
    }
  }

  /** As long as every account opens before its provisional expiry, a student never has two
      open checkouts for one due. */
  lemma {:induction false} OpenCheckoutsStayDisjoint(steps: seq<Step>)
    requires forall i :: 0 <= i < |steps| ==> OpensInTime(After(START, steps[..i]), steps[i])
    ensures Disjoint(After(START, steps).db.checkouts, After(START, steps).now)
  {
    if steps != [] {
      var n := |steps| - 1;
      var front := steps[..n];
      forall i | 0 <= i < |front| ensures OpensInTime(After(START, front[..i]), front[i]) {
        assert front[..i] == steps[..i];
      }
      OpenCheckoutsStayDisjoint(front);
      StepKeepsDisjoint(After(START, front), steps[n]);
    }
  }

  /** Row by row: two pending, unexpired checkouts of one student have no due in common. */
  lemma NeverTwoOpenForOneDue(steps: seq<Step>, a: CheckoutId, b: CheckoutId, i: nat, j: nat)
    requires forall k :: 0 <= k < |steps| ==> OpensInTime(After(START, steps[..k]), steps[k])
    requires var end := After(START, steps);
      && a < |end.db.checkouts| && b < |end.db.checkouts| && a != b && end.db.checkouts[a].userId == end.db.checkouts[b].userId
      && end.db.checkouts[a].status == CheckoutPending && end.now < end.db.checkouts[a].expiresAt
      && end.db.checkouts[b].status == CheckoutPending && end.now < end.db.checkouts[b].expiresAt
      && i < |end.db.checkouts[a].items| && j < |end.db.checkouts[b].items|
    ensures After(START, steps).db.checkouts[a].items[i].dueId != After(START, steps).db.checkouts[b].items[j].dueId
  {
    OpenCheckoutsStayDisjoint(steps);
    var end := After(START, steps);
    assert !Clash(end.db.checkouts[a], end.db.checkouts[b], end.now);
  }

  /** A checkout closed short or as expired stays so until it is paid, whatever happens. */
  lemma {:induction false} ClosedUntilPaid(sys: Sys, steps: seq<Step>, c: CheckoutId)
    requires c < |sys.db.checkouts| && sys.db.checkouts[c].status in {Underpaid, Expired}
    ensures c < |After(sys, steps).db.checkouts| && After(sys, steps).db.checkouts[c].status in {sys.db.checkouts[c].status, Paid}
  {
    if steps != [] {
      ClosedUntilPaid(sys, steps[..|steps| - 1], c);
      CheckoutStep(After(sys, steps[..|steps| - 1]), steps[|steps| - 1], c);
    }
  }
}
