/** Withdrawals over whole runs: the ledger and the provider never disagree about money. */
module PayoutRuns {
  import opened Wrappers
  import opened StateMachine
  import opened Tables
  import opened Runs
  import opened Ledger
  import opened Books
  import opened Solvency
  import opened DueAvailability
  import opened Withdrawal
  import opened Approval
  import opened PayoutFacts
  import opened Checkouts
  import opened CheckoutFacts
  import opened Protocol

  // ---------------------------------------------------------------- what moves

  lemma {:induction false} SettleKeepsPayouts(db: Db, c: CheckoutId, co: Checkout, items: seq<Item>, link: Option<Reference>, seen: seq<DuePayment>)
    ensures SettleLines(db, c, co, items, link, seen).payouts == db.payouts
    ensures SettleLines(db, c, co, items, link, seen).approvals == db.approvals
    decreases |items|
  {
    if items != [] {
      if AlreadyPaid(seen, co.userId, items[0].dueId) {
        SettleKeepsPayouts(db, c, co, items[1..], link, seen);
      } else {
        SettleKeepsPayouts(AddPayment(db, LineFor(c, co, items[0], link)), c, co, items[1..], None, seen);
      }
    }
  }

  lemma CheckoutMoveKeepsPayouts(db: Db, c: CheckoutId, act: CheckoutMove, now: Time)
    requires c < |db.checkouts|
    ensures MoveCheckout(db, c, act, now).payouts == db.payouts && MoveCheckout(db, c, act, now).approvals == db.approvals
  {
    if act.Fulfil? {
      var co := db.checkouts[c];
      SettleKeepsPayouts(db, c, co, co.items, LinkFor(db, co), db.duePayments);
    }
  }

  /** Only a withdrawal's own steps touch its row; the others at most add a row after it. */
  lemma OthersKeepPayouts(db: Db, step: Step, now: Time)
    requires !step.OnPayout?
    ensures var db' := Commit(db, step, now);
      && |db.payouts| <= |db'.payouts| <= |db.payouts| + 1 && db'.payouts[..|db.payouts|] == db.payouts
      && db'.approvals == db.approvals
      && (|db'.payouts| > |db.payouts| ==> step.Withdraw? && db'.payouts[|db.payouts|].status in {AwaitingApproval, Pending})
  {
    match step
    case OnCheckout(c, act) => if c < |db.checkouts| { CheckoutMoveKeepsPayouts(db, c, act, now); }
    case _ =>
  }

  /** A withdrawal's own step writes its own row, only its status fields, along the graph. */
  lemma MoveKeepsOthers(db: Db, p: PayoutId, move: PayoutMove)
    requires p < |db.payouts|
    ensures var db' := MovePayout(db, p, move);
      && |db'.payouts| == |db.payouts|
      && (forall q: PayoutId :: q < |db.payouts| && q != p ==> db'.payouts[q] == db.payouts[q])
      && SameTerms(db.payouts[p], db'.payouts[p])
      && (db'.payouts[p].status == db.payouts[p].status || CanTransitionPayout(db.payouts[p].status, db'.payouts[p].status))
  {
  }

  predicate Moves(a: PayoutStatus, b: PayoutStatus) { a == b || CanTransitionPayout(a, b) }

  lemma StepFrame(sys: Sys, step: Step, q: PayoutId)
    requires q < |sys.db.payouts|
    ensures var sys' := Next(sys, step);
      && q < |sys'.db.payouts| && SameTerms(sys.db.payouts[q], sys'.db.payouts[q])
      && Moves(sys.db.payouts[q].status, sys'.db.payouts[q].status)
      && (!(step.OnPayout? && step.p == q) ==> sys'.db.payouts[q] == sys.db.payouts[q])
  {
    if Enabled(sys, step) {
      if step.OnPayout? {
        MoveKeepsOthers(sys.db, step.p, step.move);
      } else {
        OthersKeepPayouts(sys.db, step, sys.now);
        assert Commit(sys.db, step, sys.now).payouts[..|sys.db.payouts|][q] == sys.db.payouts[q];
      }
    }
  }

  /** The steps that write the provider's record under a reference. */
  predicate Records(step: Step, r: Reference) {
    (step.Receive? && step.call.reference == r) || (step.Progress? && step.about == r)
  }

  lemma RecordFrame(sys: Sys, step: Step, r: Reference)
    requires !Records(step, r)
    ensures RecordOf(Next(sys, step), r) == RecordOf(sys, r)
  {
  }

  lemma CallFrame(sys: Sys, step: Step, c: Call)
    requires !(step.OnPayout? && step.move == Ask && step.p < |sys.db.payouts| && IsCallOf(sys.db.payouts[step.p], c))
    ensures c in Next(sys, step).calls <==> c in sys.calls
  {
  }

  // ------------------------------------------------------------------ agreement

  /** The money is not out, and no call that is still on its way can take it out. */
  predicate StaysHome(remote: Remote, asked: bool) {
    match remote
    case Unknown => !asked
    case Declined => true
    case Taken(state, _, _) => state in {Bounced, Returned}
  }

  /** What the row may say, given what the provider holds; and what it holds is what the row says. */
  ghost predicate Agrees(p: Payout, remote: Remote, asked: bool) {
    && (asked ==> p.destinationId.Some?)
    && (!asked ==> remote == Unknown)
    && (remote.Taken? ==> p.destinationId == Some(remote.destination) && p.netKobo == remote.amountKobo)
    && match p.status
       case AwaitingApproval => !asked
       case Cancelled => !asked
       case Pending => true
       case Processing => remote.Taken?
       case Success => remote.Taken? && remote.state in {PaidOut, Returned}
       case Failed => StaysHome(remote, asked)
       case Reversed => StateIs(remote, Returned)
  }

  ghost predicate AgreesAt(sys: Sys, p: PayoutId)
    requires p < |sys.db.payouts|
  {
    Agrees(sys.db.payouts[p], RemoteOf(sys, p), Asked(sys, p))
  }

  predicate IsCallOf(row: Payout, c: Call) { row.destinationId.Some? && CallFor(row) == c }

  ghost predicate SentFor(payouts: seq<Payout>, c: Call) {
    exists p: PayoutId :: p < |payouts| && IsCallOf(payouts[p], c)
  }

  /** References name one row each, every call carries some row's own terms, and the provider
      knows no other reference. */
  ghost predicate ProviderOk(sys: Sys) {
    && ReferencesApart(sys.db.payouts)
    && (forall c :: c in sys.calls ==> SentFor(sys.db.payouts, c))
    && (forall r :: r in sys.records ==> Referenced(sys.db.payouts, r))
  }

  ghost predicate Inv(sys: Sys) {
    && Sound(sys.db) && CheckoutsOk(sys.db) && ProviderOk(sys)
    && (forall p: PayoutId {:trigger AgreesAt(sys, p)} :: p < |sys.db.payouts| ==> AgreesAt(sys, p))
  }

  /** A call under a row's reference is that row's call. */
  lemma CallIsTheRows(sys: Sys, c: Call, p: PayoutId)
    requires ProviderOk(sys) && c in sys.calls && p < |sys.db.payouts| && sys.db.payouts[p].reference == c.reference
    ensures IsCallOf(sys.db.payouts[p], c) && Asked(sys, p)
  {
    assert SentFor(sys.db.payouts, c);
    var q: PayoutId :| q < |sys.db.payouts| && IsCallOf(sys.db.payouts[q], c);
    SameRow(sys.db.payouts, q, p);
  }

  lemma SameRow(payouts: seq<Payout>, p: PayoutId, q: PayoutId)
    requires ReferencesApart(payouts) && p < |payouts| && q < |payouts|
    ensures p == q || payouts[p].reference != payouts[q].reference
  {
    assert p == q || p < q || q < p;
  }

  lemma OwnStepAgrees(sys: Sys, p: PayoutId, move: PayoutMove)
    requires p < |sys.db.payouts| && AgreesAt(sys, p) && MoveEnabled(sys, p, move)
    ensures p < |Next(sys, OnPayout(p, move)).db.payouts|
    ensures AgreesAt(Next(sys, OnPayout(p, move)), p)
  {
    var sys' := Next(sys, OnPayout(p, move));
    MoveKeepsOthers(sys.db, p, move);
    assert RemoteOf(sys', p) == RemoteOf(sys, p);
    assert Asked(sys', p) <==> Asked(sys, p) || move == Ask;
  }

  /** A call that arrives under a row's reference. */
  lemma ReceiveAgrees(sys: Sys, call: Call, takes: bool, p: PayoutId)
    requires ProviderOk(sys) && p < |sys.db.payouts| && AgreesAt(sys, p)
    requires call in sys.calls && call.reference == sys.db.payouts[p].reference
    ensures AgreesAt(Next(sys, Receive(call, takes)), p)
  {
    CallIsTheRows(sys, call, p);
  }

  lemma ProgressAgrees(sys: Sys, to: BankState, p: PayoutId)
    requires p < |sys.db.payouts| && AgreesAt(sys, p)
    ensures AgreesAt(Next(sys, Progress(sys.db.payouts[p].reference, to)), p)
  {
  }

  /** A step about something else leaves row, record and call alone. */
  lemma OthersAgree(sys: Sys, step: Step, p: PayoutId)
    requires ProviderOk(sys) && p < |sys.db.payouts| && AgreesAt(sys, p)
    requires !(step.OnPayout? && step.p == p) && !Records(step, sys.db.payouts[p].reference)
    ensures p < |Next(sys, step).db.payouts| && AgreesAt(Next(sys, step), p)
  {
    StepFrame(sys, step, p);
    RecordFrame(sys, step, sys.db.payouts[p].reference);
    if sys.db.payouts[p].destinationId.Some? {
      if step.OnPayout? && step.p < |sys.db.payouts| { SameRow(sys.db.payouts, step.p, p); }
      CallFrame(sys, step, CallFor(sys.db.payouts[p]));
    }
  }

  lemma StepAgrees(sys: Sys, step: Step, p: PayoutId)
    requires ProviderOk(sys) && p < |sys.db.payouts| && AgreesAt(sys, p) && Enabled(sys, step)
    ensures p < |Next(sys, step).db.payouts| && AgreesAt(Next(sys, step), p)
  {
    StepFrame(sys, step, p);
    if step.OnPayout? && step.p == p {
      OwnStepAgrees(sys, p, step.move);
    } else if step.Receive? && step.call.reference == sys.db.payouts[p].reference {
      ReceiveAgrees(sys, step.call, step.takes, p);
    } else if step.Progress? && step.about == sys.db.payouts[p].reference {
      ProgressAgrees(sys, step.to, p);
    } else {
      OthersAgree(sys, step, p);
    }
  }

  lemma StepKeepsInv(sys: Sys, step: Step)
    requires Inv(sys)
    ensures Inv(Next(sys, step))
  {
    var sys' := Next(sys, step);
    if Enabled(sys, step) {
      CommitKeepsAll(sys.db, step, sys.now, sys'.db);
      StepKeepsProvider(sys, step);
      StepKeepsAgreement(sys, step);
    }
  }

  /** Rows that keep their terms keep their references and their calls. */
  lemma RowsKeepCalls(payouts: seq<Payout>, payouts': seq<Payout>)
    requires |payouts| <= |payouts'| && forall p: PayoutId :: p < |payouts| ==> SameTerms(payouts[p], payouts'[p])
    ensures forall c :: SentFor(payouts, c) ==> SentFor(payouts', c)
    ensures forall r :: Referenced(payouts, r) ==> Referenced(payouts', r)
  {
    forall c | SentFor(payouts, c) ensures SentFor(payouts', c) {
      var p: PayoutId :| p < |payouts| && IsCallOf(payouts[p], c);
      assert SameTerms(payouts[p], payouts'[p]) && IsCallOf(payouts'[p], c);
    }
    forall r | Referenced(payouts, r) ensures Referenced(payouts', r) {
      var p :| 0 <= p < |payouts| && payouts[p].reference == r;
      assert SameTerms(payouts[p], payouts'[p]);
    }
  }

  lemma StepKeepsReferences(sys: Sys, step: Step)
    requires ReferencesApart(sys.db.payouts) && Enabled(sys, step)
    ensures ReferencesApart(Next(sys, step).db.payouts)
    ensures |sys.db.payouts| <= |Next(sys, step).db.payouts|
  {
    var payouts, payouts' := sys.db.payouts, Next(sys, step).db.payouts;
    if step.Withdraw? {
      if RequestTx(sys.db, step.req, sys.now).Ok? { RequestKeepsReferences(sys.db, step.req, sys.now); }
    } else if step.OnPayout? {
      MoveKeepsOthers(sys.db, step.p, step.move);
      SameReferencesApart(payouts, payouts');
    } else {
      OthersKeepPayouts(sys.db, step, sys.now);
    }
  }

  lemma SameReferencesApart(payouts: seq<Payout>, payouts': seq<Payout>)
    requires ReferencesApart(payouts) && |payouts'| == |payouts|
    requires forall p: PayoutId :: p < |payouts| ==> payouts'[p].reference == payouts[p].reference
    ensures ReferencesApart(payouts')
  {
  }

  lemma StepKeepsProvider(sys: Sys, step: Step)
    requires ProviderOk(sys) && Enabled(sys, step)
    ensures ProviderOk(Next(sys, step))
  {
    var sys' := Next(sys, step);
    StepKeepsReferences(sys, step);
    forall p: PayoutId | p < |sys.db.payouts| ensures SameTerms(sys.db.payouts[p], sys'.db.payouts[p]) {
      StepFrame(sys, step, p);
    }
    RowsKeepCalls(sys.db.payouts, sys'.db.payouts);
    forall c | c in sys'.calls ensures SentFor(sys'.db.payouts, c) {
      if c in sys.calls {
        assert SentFor(sys.db.payouts, c);
      } else {
        assert step.OnPayout? && IsCallOf(sys.db.payouts[step.p], c);
        assert SentFor(sys.db.payouts, c);
      }
    }
    forall r | r in sys'.records ensures Referenced(sys'.db.payouts, r) {
      if step.Receive? && r == step.call.reference { CallIsReferenced(sys, step.call); }
      assert Referenced(sys.db.payouts, r);
    }
  }

  lemma CallIsReferenced(sys: Sys, c: Call)
    requires ProviderOk(sys) && c in sys.calls
    ensures Referenced(sys.db.payouts, c.reference)
  {
    assert SentFor(sys.db.payouts, c);
    var p: PayoutId :| p < |sys.db.payouts| && IsCallOf(sys.db.payouts[p], c);
    assert sys.db.payouts[p].reference == c.reference;
  }

  lemma StepKeepsAgreement(sys: Sys, step: Step)
    requires Inv(sys) && Enabled(sys, step)
    ensures var sys' := Next(sys, step);
      forall p: PayoutId {:trigger AgreesAt(sys', p)} :: p < |sys'.db.payouts| ==> AgreesAt(sys', p)
  {
    var sys', n := Next(sys, step), |sys.db.payouts|;
    forall p: PayoutId | p < |sys'.db.payouts| ensures AgreesAt(sys', p) {
      if p < n {
        assert AgreesAt(sys, p);
        StepAgrees(sys, step, p);
      } else {
        NewRowAgrees(sys, step, p);
      }
    }
  }

  /** A new row's reference is fresh, so nobody asked for it and the provider has no record. */
  lemma NewRowAgrees(sys: Sys, step: Step, p: PayoutId)
    requires ProviderOk(sys) && Enabled(sys, step) && |sys.db.payouts| <= p < |Next(sys, step).db.payouts|
    ensures AgreesAt(Next(sys, step), p)
  {
    var sys' := Next(sys, step);
    if step.OnPayout? {
      MoveKeepsOthers(sys.db, step.p, step.move);
    } else {
      OthersKeepPayouts(sys.db, step, sys.now);
      assert step.Withdraw?;
      NewReferenceIsFresh(sys.db, step.req, sys.now);
      var r := sys'.db.payouts[p].reference;
      assert r in sys.records ==> Referenced(sys.db.payouts, r);
      forall c | c in sys.calls ensures c.reference != r { CallIsReferenced(sys, c); }
    }
  }

  lemma NewReferenceIsFresh(db: Db, req: Request, now: Time)
    requires RequestTx(db, req, now).Ok?
    ensures var payouts := RequestTx(db, req, now).value.payouts;
      && |payouts| == |db.payouts| + 1 && payouts[|db.payouts|].reference == req.reference
      && payouts[|db.payouts|].status in {AwaitingApproval, Pending} && !Referenced(db.payouts, req.reference)
  {
  }

  lemma StartIsSound()
    ensures Inv(START)
  {
    forall s: SpaceId ensures SpaceBalance([], s) == 0 {}
  }

  /** Every state of every run keeps the books, the checkouts and the agreement. */
  lemma {:induction false} RunKeepsInv(sys: Sys, steps: seq<Step>)
    requires Inv(sys)
    ensures Inv(After(sys, steps))
  {
    if steps != [] {
      RunKeepsInv(sys, steps[..|steps| - 1]);
      StepKeepsInv(After(sys, steps[..|steps| - 1]), steps[|steps| - 1]);
    }
  }

  lemma ReachCompose(a: PayoutStatus, b: PayoutStatus, c: PayoutStatus)
    requires b in PayoutReach(a) && Moves(b, c)
    ensures c in PayoutReach(a)
  {
  }

  /** Over any run a withdrawal keeps its terms, and its status only moves along the graph. */
  lemma {:induction false} RunFrame(sys: Sys, steps: seq<Step>, p: PayoutId)
    requires p < |sys.db.payouts|
    ensures p < |After(sys, steps).db.payouts|
    ensures SameTerms(sys.db.payouts[p], After(sys, steps).db.payouts[p])
    ensures After(sys, steps).db.payouts[p].status in PayoutReach(sys.db.payouts[p].status)
  {
    if steps != [] {
      var mid := After(sys, steps[..|steps| - 1]);
      RunFrame(sys, steps[..|steps| - 1], p);
      StepFrame(mid, steps[|steps| - 1], p);
      ReachCompose(sys.db.payouts[p].status, mid.db.payouts[p].status, After(sys, steps).db.payouts[p].status);
    }
  }

  // -------------------------------------------------------------- main results

  /** A state some run leads to. */
  ghost predicate Reachable(sys: Sys) { exists steps :: sys == After(START, steps) }

  lemma ReachableKeepsInv(sys: Sys)
    requires Reachable(sys)
    ensures Inv(sys)
  {
    var steps :| sys == After(START, steps);
    StartIsSound();
    RunKeepsInv(START, steps);
  }

  lemma ReachableGoesOn(sys: Sys, more: seq<Step>)
    requires Reachable(sys)
    ensures Reachable(After(sys, more))
  {
    var steps :| sys == After(START, steps);
    RunConcat(Next, START, steps, more);
    assert After(sys, more) == After(START, steps + more);
  }

  /** Where a run leaves one withdrawal: in agreement with the provider and with its entries. */
  lemma ReachableAgrees(sys: Sys, p: PayoutId)
    requires Reachable(sys) && p < |sys.db.payouts|
    ensures AgreesAt(sys, p)
    ensures PayoutNet(sys.db.ledger, p) == if PayoutRestored(sys.db.payouts[p].status) then 0 else -sys.db.payouts[p].amount
  {
    ReachableKeepsInv(sys);
    InvAgrees(sys, p);
    InvNets(sys, p);
  }

  /** A balance is given back only for money that is not out and never will be: whatever
      happens afterwards, no call, late reply or bank can move it, and the withdrawal goes on
      netting to nothing. */
  lemma RestoredMoneyStaysHome(sys: Sys, more: seq<Step>, p: PayoutId)
    requires Reachable(sys) && p < |sys.db.payouts| && PayoutRestored(sys.db.payouts[p].status)
    ensures var end := After(sys, more);
      && p < |end.db.payouts| && PayoutRestored(end.db.payouts[p].status)
      && StaysHome(RemoteOf(end, p), Asked(end, p))
      && PayoutNet(end.db.ledger, p) == 0
  {
    RunFrame(sys, more, p);
    ReachableGoesOn(sys, more);
    ReachableAgrees(After(sys, more), p);
  }

  /** As long as the money is out, or a call that could take it out is still on its way, the
      ledger holds the whole gross: a lost reply alone never gives it back. */
  lemma MoneyOutIsHeld(sys: Sys, p: PayoutId)
    requires Reachable(sys) && p < |sys.db.payouts| && !StaysHome(RemoteOf(sys, p), Asked(sys, p))
    ensures PayoutNet(sys.db.ledger, p) == -sys.db.payouts[p].amount
  {
    ReachableAgrees(sys, p);
  }

  // ------------------------------------------------------- what the provider took

  /** Whatever was ever sent to the provider is the call of exactly one withdrawal, with the
      reference, destination and net that row has now and always had. */
  lemma CallsCarryTheTerms(sys: Sys, c: Call) returns (p: PayoutId)
    requires Reachable(sys) && c in sys.calls
    ensures p < |sys.db.payouts| && IsCallOf(sys.db.payouts[p], c)
    ensures forall q: PayoutId :: q < |sys.db.payouts| && sys.db.payouts[q].reference == c.reference ==> q == p
  {
    ReachableKeepsInv(sys);
    assert SentFor(sys.db.payouts, c);
    p :| p < |sys.db.payouts| && IsCallOf(sys.db.payouts[p], c);
    forall q: PayoutId | q < |sys.db.payouts| && sys.db.payouts[q].reference == c.reference ensures q == p {
      SameRow(sys.db.payouts, q, p);
    }
  }

  /** The step at which the provider takes a withdrawal on. */
  predicate Accepts(sys: Sys, step: Step, p: PayoutId)
    requires p < |sys.db.payouts|
  {
    RemoteOf(sys, p) == Unknown && RecordOf(Next(sys, step), sys.db.payouts[p].reference).Taken?
  }

  /** A record that was taken keeps what it took. */
  predicate SameTaken(was: Remote, remote: Remote) {
    was.Taken? && remote.Taken? && remote.destination == was.destination && remote.amountKobo == was.amountKobo
  }

  lemma StepKeepsTaken(sys: Sys, step: Step, r: Reference)
    requires RecordOf(sys, r).Taken?
    ensures SameTaken(RecordOf(sys, r), RecordOf(Next(sys, step), r))
  {
  }

  lemma {:induction false} RunKeepsTaken(sys: Sys, steps: seq<Step>, r: Reference)
    requires RecordOf(sys, r).Taken?
    ensures SameTaken(RecordOf(sys, r), RecordOf(After(sys, steps), r))
  {
    if steps != [] {
      RunKeepsTaken(sys, steps[..|steps| - 1], r);
      StepKeepsTaken(After(sys, steps[..|steps| - 1]), steps[|steps| - 1], r);
    }
  }

  /** What the provider holds for a withdrawal is its net to its destination. */
  lemma TakenIsTheNet(sys: Sys, p: PayoutId)
    requires Reachable(sys) && p < |sys.db.payouts| && RemoteOf(sys, p).Taken?
    ensures sys.db.payouts[p].destinationId == Some(RemoteOf(sys, p).destination)
    ensures sys.db.payouts[p].netKobo == RemoteOf(sys, p).amountKobo
  {
    ReachableAgrees(sys, p);
  }

  /** The provider takes a withdrawal on only by a call that carries its row's terms, one
      withdrawal by one call; and from then on, whatever retries arrive, it holds exactly the net
      for that destination and takes the withdrawal on no second time. */
  lemma AcceptedOnce(sys: Sys, step: Step, more: seq<Step>, again: Step, p: PayoutId)
    requires Reachable(sys) && p < |sys.db.payouts| && Accepts(sys, step, p)
    ensures step.Receive? && IsCallOf(sys.db.payouts[p], step.call)
    ensures forall q: PayoutId :: q < |sys.db.payouts| && q != p ==> !Accepts(sys, step, q)
    ensures var end := After(Next(sys, step), more);
      && p < |end.db.payouts| && SameTerms(sys.db.payouts[p], end.db.payouts[p])
      && RemoteOf(end, p).Taken? && end.db.payouts[p].destinationId == Some(RemoteOf(end, p).destination)
      && RemoteOf(end, p).amountKobo == sys.db.payouts[p].netKobo
      && !Accepts(end, again, p)
  {
    AcceptedByItsCall(sys, step, p);
    ReachableKeepsInv(sys);
    forall q: PayoutId | q < |sys.db.payouts| && q != p ensures !Accepts(sys, step, q) {
      SameRow(sys.db.payouts, q, p);
      RecordFrame(sys, step, sys.db.payouts[q].reference);
    }
    StaysTaken(sys, step, more, p);
  }

  lemma AcceptedByItsCall(sys: Sys, step: Step, p: PayoutId)
    requires Reachable(sys) && p < |sys.db.payouts| && Accepts(sys, step, p)
    ensures step.Receive? && IsCallOf(sys.db.payouts[p], step.call)
  {
    ReachableKeepsInv(sys);
    if !Records(step, sys.db.payouts[p].reference) { RecordFrame(sys, step, sys.db.payouts[p].reference); }
    assert step.Receive?;
    CallIsTheRows(sys, step.call, p);
  }

  lemma StaysTaken(sys: Sys, step: Step, more: seq<Step>, p: PayoutId)
    requires Reachable(sys) && p < |sys.db.payouts| && RecordOf(Next(sys, step), sys.db.payouts[p].reference).Taken?
    ensures var end := After(Next(sys, step), more);
      && p < |end.db.payouts| && SameTerms(sys.db.payouts[p], end.db.payouts[p])
      && RemoteOf(end, p).Taken? && end.db.payouts[p].destinationId == Some(RemoteOf(end, p).destination)
      && RemoteOf(end, p).amountKobo == sys.db.payouts[p].netKobo
  {
    RunFirst(Next, sys, step, more);
    RunFrame(sys, [step] + more, p);
    RunKeepsTaken(Next(sys, step), more, sys.db.payouts[p].reference);
    ReachableGoesOn(sys, [step] + more);
    TakenIsTheNet(After(sys, [step] + more), p);
  }

  predicate IsOut(remote: Remote) { StateIs(remote, Moving) || StateIs(remote, PaidOut) }

  /** What the provider holds, moving or paid out, for a space's first n withdrawals. */
  function OutFor(sys: Sys, s: SpaceId, n: nat): int
    requires n <= |sys.db.payouts|
  {
    if n == 0 then 0
    else
      OutFor(sys, s, n - 1)
      + if sys.db.payouts[n - 1].spaceId == s && IsOut(RemoteOf(sys, n - 1)) then RemoteOf(sys, n - 1).amountKobo else 0
  }

  lemma {:induction false} OutIsHeld(sys: Sys, s: SpaceId, n: nat)
    requires Reachable(sys) && n <= |sys.db.payouts|
    ensures OutFor(sys, s, n) <= Held(sys.db.payouts[..n], InSpace(s))
  {
    if n != 0 {
      OutIsHeld(sys, s, n - 1);
      assert sys.db.payouts[..n][..n - 1] == sys.db.payouts[..n - 1];
      OneOutIsHeld(sys, n - 1);
    }
  }

  lemma OneOutIsHeld(sys: Sys, p: PayoutId)
    requires Reachable(sys) && p < |sys.db.payouts|
    ensures 0 <= sys.db.payouts[p].amount
    ensures IsOut(RemoteOf(sys, p)) ==> !PayoutRestored(sys.db.payouts[p].status) && RemoteOf(sys, p).amountKobo <= sys.db.payouts[p].amount
  {
    ReachableAgrees(sys, p);
    ReachableRowOk(sys, p);
  }

  lemma ReachableRowOk(sys: Sys, p: PayoutId)
    requires Reachable(sys) && p < |sys.db.payouts|
    ensures PayoutOk(sys.db.dues, sys.db.payouts[p])
  {
    ReachableKeepsInv(sys);
  }

  /** The provider never holds or has paid out for a space, together with the balance the space
      can still withdraw, more than the space collected. */
  lemma NeverMoreThanCollected(sys: Sys, s: SpaceId)
    requires Reachable(sys)
    ensures OutFor(sys, s, |sys.db.payouts|) + SpaceBalance(sys.db.ledger, s)
         <= Collected(sys.db.dues, sys.db.duePayments, InSpace(s))
  {
    OutIsHeld(sys, s, |sys.db.payouts|);
    assert sys.db.payouts[..|sys.db.payouts|] == sys.db.payouts;
    ReachableKeepsInv(sys);
    SpaceIsSolvent(sys.db, s);
  }

  // ---------------------------------------------------------------- closing

  lemma InvAgrees(sys: Sys, p: PayoutId)
    requires Inv(sys) && p < |sys.db.payouts|
    ensures AgreesAt(sys, p)
  {
  }

  lemma InvNets(sys: Sys, p: PayoutId)
    requires Inv(sys) && p < |sys.db.payouts|
    ensures PayoutNet(sys.db.ledger, p) == if PayoutRestored(sys.db.payouts[p].status) then 0 else -sys.db.payouts[p].amount
  {
    PayoutNetsToGrossOrNothing(sys.db, p);
  }

  lemma FailReturnsGross(db: Db, p: PayoutId, t: Tag -> bool)
    requires Sound(db) && p < |db.payouts|
    ensures Net(FailTx(db, p).ledger, On(t)) == Net(db.ledger, On(t)) + ReturnedBy(db, FailTx(db, p), p, t)
  {
    var row := db.payouts[p];
    if CanTransitionPayout(row.status, FailureStatus(row.status)) {
      RestoreReturnsGross(db, p, WithStatus(row, FailureStatus(row.status)), t);
    }
  }

  lemma CancelReturnsGross(db: Db, p: PayoutId, t: Tag -> bool)
    requires Sound(db) && p < |db.payouts|
    ensures Net(CancelTx(db, p).ledger, On(t)) == Net(db.ledger, On(t)) + ReturnedBy(db, CancelTx(db, p), p, t)
  {
    var row := db.payouts[p];
    if CanTransitionPayout(row.status, Cancelled) {
      RestoreReturnsGross(db, p, WithStatus(row, Cancelled).(approvalExpiresAt := None), t);
    }
  }

  /** What closing a withdrawal between two states gives back. */
  function GivenBack(was: Payout, closed: Payout, selected: bool): int {
    if PayoutRestored(closed.status) && !PayoutRestored(was.status) && selected then was.amount else 0
  }

  function ReturnedBy(db: Db, db': Db, p: PayoutId, t: Tag -> bool): int
    requires p < |db.payouts|
  {
    if p < |db'.payouts| then GivenBack(db.payouts[p], db'.payouts[p], t(PayoutTag(p, db.payouts[p]))) else 0
  }

  /** A withdrawal's own step moves money only when it restores the withdrawal, and then gives
      exactly its gross back to its own space and due. */
  lemma MoveReturnsGross(db: Db, p: PayoutId, move: PayoutMove, after: Db, t: Tag -> bool)
    requires Sound(db) && p < |db.payouts| && after == MovePayout(db, p, move)
    ensures Net(after.ledger, On(t)) == Net(db.ledger, On(t)) + ReturnedBy(db, after, p, t)
  {
    if move == Cancel {
      CancelReturnsGross(db, p, t);
    } else if move in {RefusalArrives, FailureArrives, NoDestination} {
      FailReturnsGross(db, p, t);
    } else {
      OthersReturnNothing(db, p, move);
    }
  }

  lemma OthersReturnNothing(db: Db, p: PayoutId, move: PayoutMove)
    requires p < |db.payouts| && move !in {Cancel, RefusalArrives, FailureArrives, NoDestination}
    ensures var after := MovePayout(db, p, move);
      && after.ledger == db.ledger && |after.payouts| == |db.payouts|
      && (PayoutRestored(after.payouts[p].status) ==> PayoutRestored(db.payouts[p].status))
  {
  }

  // ------------------------------------------------------------------- multisig

  /** Waiting withdrawals go on only by a second counted signature or a cancellation. */
  lemma LeavingApproval(sys: Sys, step: Step, p: PayoutId)
    requires p < |sys.db.payouts| && sys.db.payouts[p].status == AwaitingApproval
    requires p < |Next(sys, step).db.payouts| && Next(sys, step).db.payouts[p].status != AwaitingApproval
    ensures var sys' := Next(sys, step);
      || sys'.db.payouts[p].status == Cancelled
      || (sys'.db.payouts[p].status == Pending && CountedTwo(sys'.db, step, p))
  {
    StepFrame(sys, step, p);
    if step.OnPayout? && step.p == p && step.move.Approve? && ApproveTx(sys.db, p, step.move.user, step.move.signatories).Ok? {
      ReleaseNeedsTwo(sys.db, p, step.move.user, step.move.signatories);
    }
  }

  /** An approval step that counted two distinct signatures from the signatory set it read. */
  ghost predicate CountedTwo(after: Db, step: Step, p: PayoutId) {
    && step.OnPayout? && step.p == p && step.move.Approve?
    && |ApprovedBy(after.approvals, p, step.move.signatories)| >= REQUIRED_APPROVALS
    && TwoApproved(after.approvals, p, step.move.signatories)
  }

  /** Getting past the wait takes an approval that counted two distinct signatures, whatever
      rejections and expiries race it. */
  lemma {:induction false} ReleaseTakesTwo(sys: Sys, steps: seq<Step>, p: PayoutId) returns (i: nat)
    requires p < |sys.db.payouts| && sys.db.payouts[p].status == AwaitingApproval
    requires p < |After(sys, steps).db.payouts| && After(sys, steps).db.payouts[p].status !in {AwaitingApproval, Cancelled}
    ensures i < |steps| && CountedTwo(After(sys, steps[..i + 1]).db, steps[i], p)
  {
    var n := |steps| - 1;
    RunFrame(sys, steps[..n], p);
    StepFrame(After(sys, steps[..n]), steps[n], p);
    if After(sys, steps[..n]).db.payouts[p].status == AwaitingApproval {
      i := n;
      LeavingApproval(After(sys, steps[..n]), steps[n], p);
      assert steps[..n + 1] == steps;
    } else {
      i := ReleaseTakesTwo(sys, steps[..n], p);
      assert steps[..n][..i + 1] == steps[..i + 1];
    }
  }

  /** So does being sent to the provider at all. */
  lemma SendingTakesTwo(sys: Sys, steps: seq<Step>, p: PayoutId) returns (i: nat)
    requires Reachable(sys) && p < |sys.db.payouts| && sys.db.payouts[p].status == AwaitingApproval
    requires p < |After(sys, steps).db.payouts| && Asked(After(sys, steps), p)
    ensures i < |steps| && CountedTwo(After(sys, steps[..i + 1]).db, steps[i], p)
  {
    ReachableGoesOn(sys, steps);
    ReachableAgrees(After(sys, steps), p);
    i := ReleaseTakesTwo(sys, steps, p);
  }

  /** A withdrawal requested in a space that takes signatures, and sent to the provider in whatever
      follows, went through such an approval after its request. */
  lemma MultisigTakesTwo(sys: Sys, req: Request, more: seq<Step>) returns (i: nat)
    requires Reachable(sys) && RequestTx(sys.db, req, sys.now).Ok? && req.multisig
    requires var end := After(sys, [Withdraw(req)] + more); |sys.db.payouts| < |end.db.payouts| && Asked(end, |sys.db.payouts|)
    ensures i < |more| && CountedTwo(After(sys, [Withdraw(req)] + more[..i + 1]).db, more[i], |sys.db.payouts|)
  {
    var mid := Next(sys, Withdraw(req));
    RequestAddsOneRow(sys.db, req, sys.now);
    RunOne(Next, sys, Withdraw(req));
    RunFirst(Next, sys, Withdraw(req), more);
    ReachableGoesOn(sys, [Withdraw(req)]);
    i := SendingTakesTwo(mid, more, |sys.db.payouts|);
    RunFirst(Next, sys, Withdraw(req), more[..i + 1]);
  }

  /** A cancelled withdrawal was never sent and never will be. */
  lemma CancelledIsNeverAsked(sys: Sys, more: seq<Step>, p: PayoutId)
    requires Reachable(sys) && p < |sys.db.payouts| && sys.db.payouts[p].status == Cancelled
    ensures p < |After(sys, more).db.payouts| && !Asked(After(sys, more), p) && RemoteOf(After(sys, more), p) == Unknown
  {
    RunFrame(sys, more, p);
    ReachableGoesOn(sys, more);
    ReachableAgrees(After(sys, more), p);
  }

  // ---------------------------------------------------------------- every state

  /** In every reachable state each space is solvent, its dues' availabilities add up to its
      balance, and it has at most one withdrawal in flight. */
  lemma EveryRunIsSolvent(sys: Sys, s: SpaceId, lead: Option<UserId>)
    requires Reachable(sys)
    ensures var db := sys.db;
      && SpaceBalance(db.ledger, s) == Collected(db.dues, db.duePayments, InSpace(s)) - Held(db.payouts, InSpace(s))
      && 0 <= SpaceBalance(db.ledger, s)
      && TotalAvailable(db.ledger, db.dues, s, lead) == SpaceBalance(db.ledger, s)
    ensures OneHolder(sys.db.payouts, s)
  {
    ReachableKeepsInv(sys);
    SpaceIsSolvent(sys.db, s);
    AvailabilitySumsToBalance(sys.db, s, lead);
    SoundHasOneHolder(sys.db, s);
  }

  /** A withdrawal holds its space exactly while it waits, is pending or is processing. */
  lemma HoldsWhileOpen(sys: Sys, p: PayoutId)
    requires Reachable(sys) && p < |sys.db.payouts|
    ensures sys.db.payouts[p].activeSpaceId
         == if sys.db.payouts[p].status in {AwaitingApproval, Pending, Processing} then Some(sys.db.payouts[p].spaceId) else None
  {
    ReachableRowOk(sys, p);
  }

  predicate Holds(p: Payout, s: SpaceId) { p.activeSpaceId == Some(s) }

  ghost predicate OneHolder(payouts: seq<Payout>, s: SpaceId) {
    forall i, j {:trigger Holds(payouts[i], s), Holds(payouts[j], s)} ::
      0 <= i < j < |payouts| ==> !(Holds(payouts[i], s) && Holds(payouts[j], s))
  }

  lemma SoundHasOneHolder(db: Db, s: SpaceId)
    requires Sound(db)
    ensures OneHolder(db.payouts, s)
  {
    forall i, j | 0 <= i < j < |db.payouts| ensures !(Holds(db.payouts[i], s) && Holds(db.payouts[j], s)) {
      assert PayoutOk(db.dues, db.payouts[i]) && PayoutOk(db.dues, db.payouts[j]);
      assert !BothInFlight(db.payouts[i], db.payouts[j]);
    }
  }
}
