/** Everything that writes money, as one transition system. Each step is one transaction or one
    move of the outside world; steps of any number of requests, webhook workers and
    reconciliation sweeps interleave freely. A step that is not enabled changes nothing. */
module Protocol {
  import opened Wrappers
  import opened StateMachine
  import opened Tables
  import opened Runs
  import opened Books
  import opened Withdrawal
  import opened Approval
  import opened Checkouts
  import opened Settlement
  import opened CheckoutFacts

  // ------------------------------------------------------------ the outside world

  datatype BankState = Moving | PaidOut | Bounced | Returned

  /** A call on its way to the provider: what it asks to be sent, where to, and the reference that
      makes a repeated call the same one. */
  datatype Call = Call(reference: Reference, destination: nat, amountKobo: int)

  /** What the provider holds under one reference. */
  datatype Remote = Unknown | Declined | Taken(state: BankState, destination: nat, amountKobo: int)

  predicate BankMoves(from: BankState, to: BankState) {
    (from == Moving && to in {PaidOut, Bounced}) || (from == PaidOut && to == Returned)
  }

  datatype PayoutMove =
    | Approve(user: UserId, signatories: set<UserId>)
    | NoteRejection(user: UserId)
    | Cancel
    | Ask                // a dispatcher reads the row and sends a call off with what it read
    | AcceptanceArrives  // a reply, kept or late, is written down
    | RefusalArrives
    | SuccessArrives     // from a reply, a webhook or a sweep, any number of times
    | FailureArrives
    | NoDestination

  datatype CheckoutMove =
    | OpenAccount(chargeId: Option<nat>, expiresAt: Time)
    | Fulfil(receivedKobo: int, overpaidKobo: int, chargeId: Option<nat>)
    | ShortPayment(receivedKobo: int)
    | Expire
    | Resolve

  datatype Step =
    | PutDue(d: DueId, due: Due)
    | Withdraw(req: Request)
    | OnPayout(p: PayoutId, move: PayoutMove)
    | Receive(call: Call, takes: bool)            // a call arrives, and is decided on or answered as before
    | Progress(about: Reference, to: BankState)   // the bank moves the money
    | NewBasket(basket: CheckoutRequest)
    | OnCheckout(c: CheckoutId, act: CheckoutMove)
    | CreditByHand(user: UserId, dueId: DueId, payee: Payee, reference: Reference)
    | Tick(ms: nat)

  /** The tables, every call ever sent, the provider's records, and the time. */
  datatype Sys = Sys(db: Db, calls: set<Call>, records: map<Reference, Remote>, now: Time)

  const START := Sys(EMPTY_DB, {}, map[], 0)

  function RecordOf(sys: Sys, r: Reference): Remote { if r in sys.records then sys.records[r] else Unknown }

  function RemoteOf(sys: Sys, p: PayoutId): Remote
    requires p < |sys.db.payouts|
  {
    RecordOf(sys, sys.db.payouts[p].reference)
  }

  /** The call a dispatcher makes for a row. */
  function CallFor(row: Payout): Call
    requires row.destinationId.Some?
  {
    Call(row.reference, row.destinationId.value, row.netKobo)
  }

  /** Some dispatcher has sent this row's call. */
  predicate Asked(sys: Sys, p: PayoutId)
    requires p < |sys.db.payouts|
  {
    sys.db.payouts[p].destinationId.Some? && CallFor(sys.db.payouts[p]) in sys.calls
  }

  predicate StateIs(remote: Remote, state: BankState) { remote.Taken? && remote.state == state }

  // -------------------------------------------------------------------- the steps

  function MovePayout(db: Db, p: PayoutId, move: PayoutMove): Db
    requires p < |db.payouts|
  {
    match move
    case Approve(user, signatories) => (match ApproveTx(db, p, user, signatories) case Ok(after) => after case Err(_) => db)
    case NoteRejection(user) => RejectionTx(db, p, user)
    case Cancel => CancelTx(db, p)
    case AcceptanceArrives => MarkProcessingTx(db, p)
    case SuccessArrives => CompleteTx(db, p)
    case RefusalArrives => FailTx(db, p)
    case FailureArrives => FailTx(db, p)
    case NoDestination => FailTx(db, p)
    case Ask => db
  }

  function MoveCheckout(db: Db, c: CheckoutId, act: CheckoutMove, now: Time): Db
    requires c < |db.checkouts|
  {
    match act
    case OpenAccount(chargeId, expiresAt) => OpenAccountTx(db, c, chargeId, expiresAt)
    case Fulfil(received, overpaid, chargeId) => FulfilTx(db, c, received, overpaid, chargeId, now)
    case ShortPayment(received) => UnderpaidTx(db, c, received, now)
    case Expire => ExpireTx(db, c, now)
    case Resolve => ResolveTx(db, c)
  }

  /** What a step commits to the tables. */
  function Commit(db: Db, step: Step, now: Time): Db {
    match step
    case PutDue(d, due) => if d < |db.dues| then db.(dues := db.dues[d := due]) else db.(dues := db.dues + [due])
    case Withdraw(req) => (match RequestTx(db, req, now) case Ok(after) => after case Err(_) => db)
    case OnPayout(p, move) => if p < |db.payouts| then MovePayout(db, p, move) else db
    case NewBasket(req) => (match CreateTx(db, req.(now := now)) case Ok(r) => r.db case Err(_) => db)
    case OnCheckout(c, act) => if c < |db.checkouts| then MoveCheckout(db, c, act, now) else db
    case CreditByHand(user, due, payee, reference) =>
      (match ManualCreditTx(db, user, due, payee, reference) case Ok(after) => after case Err(_) => db)
    case Receive(_, _) => db
    case Progress(_, _) => db
    case Tick(_) => db
  }

  /** The provider's side of a call: a reference it knows keeps its record. */
  function Answered(remote: Remote, call: Call, takes: bool): Remote {
    if remote != Unknown then remote else if takes then Taken(Moving, call.destination, call.amountKobo) else Declined
  }

  predicate MoveEnabled(sys: Sys, p: PayoutId, move: PayoutMove)
    requires p < |sys.db.payouts|
  {
    var row, remote := sys.db.payouts[p], RemoteOf(sys, p);
    match move
    case Approve(_, _) => true
    case NoteRejection(_) => true
    case Cancel => true
    case Ask => row.status == Pending && row.destinationId.Some?
    case AcceptanceArrives => remote.Taken?
    case RefusalArrives => remote.Declined?
    case SuccessArrives => remote.Taken? && remote.state in {PaidOut, Returned}
    case FailureArrives => remote.Taken? && remote.state in {Bounced, Returned}
    case NoDestination => row.destinationId.None?
  }

  predicate Enabled(sys: Sys, step: Step) {
    match step
    case PutDue(d, due) => DueOk(due) && d <= |sys.db.dues| && (d < |sys.db.dues| ==> due.spaceId == sys.db.dues[d].spaceId)
    case OnPayout(p, move) => p < |sys.db.payouts| && MoveEnabled(sys, p, move)
    case Receive(call, _) => call in sys.calls
    case Progress(about, to) => RecordOf(sys, about).Taken? && BankMoves(RecordOf(sys, about).state, to)
    case _ => true
  }

  function Next(sys: Sys, step: Step): Sys {
    if !Enabled(sys, step) then sys
    else
      var db := Commit(sys.db, step, sys.now);
      match step
      case OnPayout(p, move) => sys.(db := db, calls := if move == Ask then sys.calls + {CallFor(sys.db.payouts[p])} else sys.calls)
      case Receive(call, takes) =>
        sys.(records := sys.records[call.reference := Answered(RecordOf(sys, call.reference), call, takes)])
      case Progress(about, to) => sys.(records := sys.records[about := RecordOf(sys, about).(state := to)])
      case Tick(ms) => sys.(now := sys.now + ms)
      case _ => sys.(db := db)
  }

  /** A run from a state. */
  function After(sys: Sys, steps: seq<Step>): Sys { Run(Next, sys, steps) }

  // -------------------------------------------------------- the books, step by step

  lemma SigningKeepsSound(db: Db, p: PayoutId, move: PayoutMove, after: Db)
    requires Sound(db) && p < |db.payouts| && after == MovePayout(db, p, move) && (move.Approve? || move.NoteRejection?)
    ensures Sound(after)
  {
    if move.NoteRejection? {
      SignaturesKeepSound(db, after);
    } else if ApproveTx(db, p, move.user, move.signatories).Ok? {
      ApproveKeepsSound(db, p, move.user, move.signatories, after);
    }
  }

  lemma PayoutMoveKeepsSound(db: Db, p: PayoutId, move: PayoutMove, after: Db)
    requires Sound(db) && p < |db.payouts| && after == MovePayout(db, p, move)
    ensures Sound(after)
  {
    match move
    case Approve(_, _) => SigningKeepsSound(db, p, move, after);
    case NoteRejection(_) => SigningKeepsSound(db, p, move, after);
    case Cancel => CancelKeepsSound(db, p, after);
    case AcceptanceArrives => AcceptanceKeepsSound(db, p, after);
    case SuccessArrives => CompleteKeepsSound(db, p, after);
    case RefusalArrives => FailKeepsSound(db, p, after);
    case FailureArrives => FailKeepsSound(db, p, after);
    case NoDestination => FailKeepsSound(db, p, after);
    case _ =>
  }

  lemma PayoutMoveKeepsTables(db: Db, p: PayoutId, move: PayoutMove)
    requires p < |db.payouts|
    ensures var db' := MovePayout(db, p, move);
      && db'.dues == db.dues && db'.checkouts == db.checkouts && db'.duePayments == db.duePayments
      && db'.txns == db.txns && db'.receipts == db.receipts
  {
  }

  lemma NotesKeepBooks(db: Db, c: CheckoutId, act: CheckoutMove, now: Time)
    requires c < |db.checkouts| && !act.Fulfil?
    ensures var db' := MoveCheckout(db, c, act, now);
      db'.dues == db.dues && db'.payouts == db.payouts && db'.ledger == db.ledger && db'.duePayments == db.duePayments
  {
  }

  lemma FulfilKeepsAll(db: Db, c: CheckoutId, act: CheckoutMove, now: Time, after: Db)
    requires Sound(db) && CheckoutsOk(db) && c < |db.checkouts| && act.Fulfil? && after == MoveCheckout(db, c, act, now)
    ensures Sound(after) && CheckoutsOk(after)
  {
    assert BasketOk(db.dues, db.checkouts[c]);
    FulfilKeepsBooks(db, c, act.receivedKobo, act.overpaidKobo, act.chargeId, now);
    FulfilKeepsCheckouts(db, c, act.receivedKobo, act.overpaidKobo, act.chargeId, now);
  }

  lemma NotesKeepRows(db: Db, c: CheckoutId, act: CheckoutMove, now: Time, after: Db)
    requires CheckoutsOk(db) && c < |db.checkouts| && !act.Fulfil? && after == MoveCheckout(db, c, act, now)
    ensures CheckoutsOk(after)
  {
    match act
    case OpenAccount(chargeId, expiresAt) => NotesKeepCheckouts(db, c, 0, now, chargeId, expiresAt);
    case ShortPayment(received) => NotesKeepCheckouts(db, c, received, now, None, 0);
    case Expire => NotesKeepCheckouts(db, c, 0, now, None, 0);
    case Resolve => NotesKeepCheckouts(db, c, 0, now, None, 0);
  }

  lemma CheckoutMoveKeepsAll(db: Db, c: CheckoutId, act: CheckoutMove, now: Time, after: Db)
    requires Sound(db) && CheckoutsOk(db) && c < |db.checkouts| && after == MoveCheckout(db, c, act, now)
    ensures Sound(after) && CheckoutsOk(after)
  {
    if act.Fulfil? {
      FulfilKeepsAll(db, c, act, now, after);
    } else {
      NotesKeepBooks(db, c, act, now);
      SameBooksSound(db, after);
      NotesKeepRows(db, c, act, now, after);
    }
  }

  lemma CreditKeepsBooks(db: Db, user: UserId, due: DueId, payee: Payee, reference: Reference)
    requires Sound(db) && ManualCreditTx(db, user, due, payee, reference).Ok?
    ensures Sound(ManualCreditTx(db, user, due, payee, reference).value)
  {
    var noted := db.(txns := db.txns[reference := TxnCompleted]);
    SameBooksSound(db, noted);
    assert DueOk(db.dues[due]);
    AddPaymentKeepsSound(noted, CreditLine(db, user, due, reference));
  }

  lemma RequestKeepsTables(db: Db, req: Request, now: Time)
    requires RequestTx(db, req, now).Ok?
    ensures var db' := RequestTx(db, req, now).value;
      && db'.dues == db.dues && db'.checkouts == db.checkouts && db'.duePayments == db.duePayments
      && db'.txns == db.txns && db'.receipts == db.receipts
  {
  }

  lemma PutDueKeepsAll(db: Db, d: DueId, due: Due)
    requires Sound(db) && CheckoutsOk(db) && DueOk(due) && d <= |db.dues| && (d < |db.dues| ==> due.spaceId == db.dues[d].spaceId)
    ensures Sound(Commit(db, PutDue(d, due), 0)) && CheckoutsOk(Commit(db, PutDue(d, due), 0))
  {
    var db' := Commit(db, PutDue(d, due), 0);
    forall x: DueId | x < |db'.dues| ensures DueOk(db'.dues[x]) {
      if x != d { assert DueOk(db.dues[x]); }
    }
    DuesKeepSound(db, db'.dues);
    UntouchedKeepsCheckouts(db, db');
  }

  lemma NewBasketKeepsBooks(db: Db, req: CheckoutRequest)
    requires CreateTx(db, req).Ok?
    ensures var after := CreateTx(db, req).value.db;
      after.dues == db.dues && after.payouts == db.payouts && after.ledger == db.ledger && after.duePayments == db.duePayments
  {
  }

  lemma NewBasketKeepsAll(db: Db, req: CheckoutRequest, after: Db)
    requires Sound(db) && CheckoutsOk(db) && CreateTx(db, req).Ok? && after == CreateTx(db, req).value.db
    ensures Sound(after) && CheckoutsOk(after)
  {
    forall d: DueId | d < |db.dues| ensures DueOk(db.dues[d]) {
    }
    NewBasketKeepsBooks(db, req);
    SameBooksSound(db, after);
    CreateKeepsCheckouts(db, req);
  }

  lemma WithdrawKeepsAll(db: Db, req: Request, now: Time)
    requires Sound(db) && CheckoutsOk(db) && RequestTx(db, req, now).Ok?
    ensures Sound(RequestTx(db, req, now).value) && CheckoutsOk(RequestTx(db, req, now).value)
  {
    RequestKeepsSound(db, req, now);
    RequestKeepsTables(db, req, now);
    UntouchedKeepsCheckouts(db, RequestTx(db, req, now).value);
  }

  lemma PayoutMoveKeepsAll(db: Db, p: PayoutId, move: PayoutMove, after: Db)
    requires Sound(db) && CheckoutsOk(db) && p < |db.payouts| && after == MovePayout(db, p, move)
    ensures Sound(after) && CheckoutsOk(after)
  {
    PayoutMoveKeepsSound(db, p, move, after);
    PayoutMoveKeepsTables(db, p, move);
    UntouchedKeepsCheckouts(db, after);
  }

  lemma CreditKeepsAll(db: Db, user: UserId, due: DueId, payee: Payee, reference: Reference)
    requires Sound(db) && CheckoutsOk(db) && ManualCreditTx(db, user, due, payee, reference).Ok?
    ensures Sound(ManualCreditTx(db, user, due, payee, reference).value)
    ensures CheckoutsOk(ManualCreditTx(db, user, due, payee, reference).value)
  {
    CreditKeepsBooks(db, user, due, payee, reference);
    CreditKeepsCheckouts(db, user, due, payee, reference);
  }

  ghost predicate Kept(db: Db) { Sound(db) && CheckoutsOk(db) }

  lemma BasketCommitKeepsAll(db: Db, step: Step, now: Time, after: Db)
    requires Kept(db) && after == Commit(db, step, now) && step.NewBasket?
    ensures Kept(after)
  {
    var req := step.basket.(now := now);
    if CreateTx(db, req).Ok? { NewBasketKeepsAll(db, req, after); }
  }

  lemma OtherCommitsKeepAll(db: Db, step: Step, now: Time, after: Db)
    requires Kept(db) && after == Commit(db, step, now) && (step.Withdraw? || step.CreditByHand?)
    ensures Kept(after)
  {
    match step
    case Withdraw(req) => if RequestTx(db, req, now).Ok? { WithdrawKeepsAll(db, req, now); }
    case CreditByHand(user, due, payee, reference) =>
      if ManualCreditTx(db, user, due, payee, reference).Ok? { CreditKeepsAll(db, user, due, payee, reference); }
  }

  /** Every committed step keeps the books and the checkouts. */
  lemma CommitKeepsAll(db: Db, step: Step, now: Time, after: Db)
    requires Kept(db) && after == Commit(db, step, now)
    requires step.PutDue? ==> DueOk(step.due) && step.d <= |db.dues| && (step.d < |db.dues| ==> step.due.spaceId == db.dues[step.d].spaceId)
    ensures Kept(after)
  {
    if step.PutDue? {
      PutDueKeepsAll(db, step.d, step.due);
    } else if step.OnPayout? {
      if step.p < |db.payouts| { PayoutMoveKeepsAll(db, step.p, step.move, after); }
    } else if step.OnCheckout? {
      if step.c < |db.checkouts| { CheckoutMoveKeepsAll(db, step.c, step.act, now, after); }
    } else if step.NewBasket? {
      BasketCommitKeepsAll(db, step, now, after);
    } else if step.Withdraw? || step.CreditByHand? {
      OtherCommitsKeepAll(db, step, now, after);
    }
  }
}
