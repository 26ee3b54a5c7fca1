/** What a request, an outcome, a dispatch and a signature do to a withdrawal, column by column
    (src/services/withdrawal.service.ts, src/services/withdrawalApproval.service.ts). */
module PayoutFacts {
  import opened Wrappers
  import opened Money
  import opened StateMachine
  import opened Tables
  import opened Ledger
  import opened DueAvailability
  import opened Books
  import opened Solvency
  import opened Withdrawal
  import opened Approval

  // ------------------------------------------------------------------- requests

  /** The tests of a request, numbered in the order they are made: those before the space is
      locked, */
  predicate FailsEarly(db: Db, req: Request, test: nat) {
    var s := req.standing;
    match test
    case 0 => req.amountKobo < 100_000 || req.amountKobo > 9_007_199_254_740_991
    case 1 => req.discountPercent < 0 || req.discountPercent > 100
    case 2 => !s.known
    case 3 => !s.isRep
    case 4 => s.suspended
    case 5 => req.dueId.None? && !s.isLead
    case 6 => req.dueId.Some? && (req.dueId.value >= |db.dues| || db.dues[req.dueId.value].spaceId != req.spaceId)
    case 7 => req.dueId.Some? && req.dueId.value < |db.dues| && !s.isLead && db.dues[req.dueId.value].assignedRepId != Some(req.userId)
    case 8 => s.frozen
    case 9 => !s.codeAccepted
    case 10 => !s.verified
    case 11 => !s.leadCanWithdraw
    case 12 => !s.targetFound
    case _ => false
  }

  /** and those under its lock. */
  predicate FailsLocked(db: Db, req: Request, test: nat) {
    match test
    case 13 => exists i :: 0 <= i < |db.payouts| && db.payouts[i].activeSpaceId == Some(req.spaceId)
    case 14 => req.amountKobo > SpaceBalance(db.ledger, req.spaceId)
    case 15 => req.dueId.Some? && req.amountKobo > Available(db.ledger, db.dues, req.spaceId, req.lead, req.dueId.value)
    case 16 => exists i :: 0 <= i < |db.payouts| && db.payouts[i].reference == req.reference
    case _ => false
  }

  predicate Fails(db: Db, req: Request, test: nat) { FailsEarly(db, req, test) || FailsLocked(db, req, test) }

  /** What each test answers. */
  function ErrorOf(req: Request, test: nat): WithdrawalError {
    match test
    case 0 => BelowMinPayout case 1 => BadDiscount case 2 => SpaceNotFound case 3 => NotARep case 4 => AccountSuspended
    case 5 => DueRequired case 6 => DueNotFound case 7 => DueNotAssigned case 8 => PayoutsFrozen case 9 => CodeRefused
    case 10 => KycNotVerified
    case 11 => if req.standing.isLead then KycNotVerified else LeadKycNotVerified
    case 12 => TargetNotFound case 14 => InsufficientBalance case 15 => InsufficientBalance
    case _ => WithdrawalInProgress
  }

  lemma Breaks(gross: int, percent: int)
    ensures ComputeWithdrawal(gross, percent).Err? <==> gross < 0 || gross > 9_007_199_254_740_991 || percent < 0 || percent > 100
  {
  }

  /** The tests before the lock, by what they look at. */
  function EarlyError(db: Db, req: Request): Option<WithdrawalError> {
    if req.amountKobo < 100_000 || req.amountKobo > 9_007_199_254_740_991 then Some(BelowMinPayout)
    else if req.discountPercent < 0 || req.discountPercent > 100 then Some(BadDiscount)
    else if RequesterError(req.standing).Some? then RequesterError(req.standing)
    else if ScopeError(db, req).Some? then ScopeError(db, req)
    else GateError(req.standing)
  }

  lemma EarlyThenLocked(db: Db, req: Request)
    ensures RequestError(db, req) == if EarlyError(db, req).Some? then EarlyError(db, req) else FundsError(db, req)
  {
    Breaks(req.amountKobo, req.discountPercent);
  }

  lemma FailedEarly(db: Db, req: Request, test: nat)
    requires FailsEarly(db, req, test) && forall k: nat :: k < test ==> !FailsEarly(db, req, k)
    ensures EarlyError(db, req) == Some(ErrorOf(req, test))
  {
    if test > 0 { assert !FailsEarly(db, req, 0); }
    if test > 1 { assert !FailsEarly(db, req, 1); }
    if test > 2 { assert !FailsEarly(db, req, 2); }
    if test > 3 { assert !FailsEarly(db, req, 3); }
    if test > 4 { assert !FailsEarly(db, req, 4); }
    if test > 5 { assert !FailsEarly(db, req, 5); }
    if test > 6 { assert !FailsEarly(db, req, 6); }
    if test > 7 { assert !FailsEarly(db, req, 7); }
    if test > 8 { assert !FailsEarly(db, req, 8); }
    if test > 9 { assert !FailsEarly(db, req, 9); }
    if test > 10 { assert !FailsEarly(db, req, 10); }
    if test > 11 { assert !FailsEarly(db, req, 11); }
  }

  lemma PassedEarly(db: Db, req: Request)
    requires forall k: nat :: k < 13 ==> !FailsEarly(db, req, k)
    ensures EarlyError(db, req).None?
  {
    assert !FailsEarly(db, req, 0) && !FailsEarly(db, req, 1) && !FailsEarly(db, req, 2) && !FailsEarly(db, req, 3) && !FailsEarly(db, req, 4);
    assert !FailsEarly(db, req, 5) && !FailsEarly(db, req, 6) && !FailsEarly(db, req, 7) && !FailsEarly(db, req, 8);
    assert !FailsEarly(db, req, 9) && !FailsEarly(db, req, 10) && !FailsEarly(db, req, 11) && !FailsEarly(db, req, 12);
  }

  lemma FailedLocked(db: Db, req: Request, test: nat)
    requires FailsLocked(db, req, test) && forall k: nat :: k < test ==> !FailsLocked(db, req, k)
    ensures FundsError(db, req) == Some(ErrorOf(req, test))
  {
    if test > 13 { assert !FailsLocked(db, req, 13); }
    if test > 14 { assert !FailsLocked(db, req, 14); }
    if test > 15 { assert !FailsLocked(db, req, 15); }
  }

  /** A request is refused with the answer of the first test it fails, */
  lemma RefusedByFirstFailure(db: Db, req: Request, now: Time, test: nat)
    requires Fails(db, req, test) && forall k: nat :: k < test ==> !Fails(db, req, k)
    ensures RequestTx(db, req, now) == Err(ErrorOf(req, test))
  {
    EarlyThenLocked(db, req);
    forall k: nat | k < test ensures !FailsEarly(db, req, k) && !FailsLocked(db, req, k) { assert !Fails(db, req, k); }
    if test < 13 {
      FailedEarly(db, req, test);
    } else {
      PassedEarly(db, req);
      FailedLocked(db, req, test);
    }
  }

  /** and permitted exactly if it passes them all. */
  lemma PermittedExactly(db: Db, req: Request, now: Time)
    ensures RequestTx(db, req, now).Ok? <==> forall test: nat :: !Fails(db, req, test)
  {
    EarlyThenLocked(db, req);
    if forall test: nat :: !Fails(db, req, test) {
      forall k: nat ensures !FailsEarly(db, req, k) && !FailsLocked(db, req, k) { assert !Fails(db, req, k); }
      PassedEarly(db, req);
      PassedLocked(db, req);
    } else {
      var n: nat :| Fails(db, req, n);
      var test := FirstOf(db, req, n);
      RefusedByFirstFailure(db, req, now, test);
    }
  }

  lemma PassedLocked(db: Db, req: Request)
    requires forall k: nat :: !FailsLocked(db, req, k)
    ensures FundsError(db, req).None?
  {
    assert !FailsLocked(db, req, 13) && !FailsLocked(db, req, 14) && !FailsLocked(db, req, 15) && !FailsLocked(db, req, 16);
  }

  lemma {:induction false} FirstOf(db: Db, req: Request, n: nat) returns (test: nat)
    requires Fails(db, req, n)
    ensures Fails(db, req, test) && forall k: nat :: k < test ==> !Fails(db, req, k)
    decreases n
  {
    if k: nat :| k < n && Fails(db, req, k) { test := FirstOf(db, req, k); } else { test := n; }
  }

  // ------------------------------------------------------------ what a request writes

  /** A permitted request adds one row and touches no other: with signatures it waits for them, for a
      day, and without it is pending; it holds its space, and it splits into its fee, 100 or 200 naira
      less the discount rounded half-up, and the rest. */
  lemma RequestAddsOneRow(db: Db, req: Request, now: Time)
    requires RequestTx(db, req, now).Ok?
    ensures var after, n := RequestTx(db, req, now).value, |db.payouts|;
      && |after.payouts| == n + 1 && after.payouts[..n] == db.payouts
      && after == db.(payouts := after.payouts, ledger := after.ledger)
      && var p := after.payouts[n];
         && p.status == (if req.multisig then AwaitingApproval else Pending)
         && p.approvalExpiresAt == (if req.multisig then Some(now + 86_400_000) else None)
         && p.activeSpaceId == Some(req.spaceId)
         && p.reference == req.reference && p.spaceId == req.spaceId && p.dueId == req.dueId
         && p.destinationId == req.destinationId && p.requestedById == req.userId
         && p.amount == req.amountKobo == p.netKobo + p.feeKobo
         && var full := if req.amountKobo < 5_000_000 then 10_000 else 20_000;
            0 <= p.feeKobo <= full && IsHalfUp(full * req.discountPercent, 100, full - p.feeKobo)
  {
    PermittedTerms(db, req);
    DiscountBounds(if req.amountKobo < 5_000_000 then 10_000 else 20_000, req.discountPercent);
  }

  lemma PermittedTerms(db: Db, req: Request)
    requires RequestError(db, req).None?
    ensures 100_000 <= req.amountKobo && IsSafeInteger(req.amountKobo) && 0 <= req.discountPercent <= 100
  {
    EarlyThenLocked(db, req);
  }

  /** And it appends its net as a debit and, unless it is nothing, its fee as another. */
  lemma RequestDebits(db: Db, req: Request, now: Time)
    requires Sound(db) && RequestTx(db, req, now).Ok?
    ensures var after, n := RequestTx(db, req, now).value, |db.payouts|;
      && n < |after.payouts|
      && var p, tag := after.payouts[n], Tag(req.spaceId, req.dueId, None, Some(n));
         after.ledger == db.ledger + [Entry(PayoutDebit, Debit, p.netKobo, tag)]
                         + if p.feeKobo == 0 then [] else [Entry(PayoutFee, Debit, p.feeKobo, tag)]
  {
    NewPayoutOk(db, req, now);
    DebitedExactly(db, NewPayout(req, ComputeWithdrawal(req.amountKobo, req.discountPercent).value, now));
  }

  /** A withdrawal of the lead's from the whole space leaves what every co-rep's due can pay out as it
      was, exactly as long as the dues that are nobody's or the lead's can bear it. */
  lemma WholeSpaceSparesCoReps(db: Db, req: Request, now: Time)
    requires Sound(db) && RequestTx(db, req, now).Ok? && req.dueId.None?
    ensures var after := RequestTx(db, req, now).value;
      (forall d: DueId :: d < |db.dues| && db.dues[d].spaceId == req.spaceId && db.dues[d].assignedRepId !in {None, req.lead} ==>
         Available(after.ledger, after.dues, req.spaceId, req.lead, d) == Available(db.ledger, db.dues, req.spaceId, req.lead, d))
      <==> req.amountKobo <= LeadAvailable(db.ledger, db.dues, req.spaceId, req.lead)
  {
    var p := NewPayout(req, ComputeWithdrawal(req.amountKobo, req.discountPercent).value, now);
    NewPayoutOk(db, req, now);
    DebitedExactly(db, p);
    WholeSpaceDebit(db, |db.payouts|, p, req.lead);
  }

  lemma WholeSpaceDebit(db: Db, i: PayoutId, p: Payout, lead: Option<UserId>)
    requires Sound(db) && PayoutOk(db.dues, p) && !PayoutRestored(p.status) && p.dueId.None?
    requires p.amount <= SpaceBalance(db.ledger, p.spaceId)
    ensures var after := db.ledger + PayoutEntries(i, p);
      (forall d: DueId :: d < |db.dues| && db.dues[d].spaceId == p.spaceId && db.dues[d].assignedRepId !in {None, lead} ==>
         Available(after, db.dues, p.spaceId, lead, d) == Available(db.ledger, db.dues, p.spaceId, lead, d))
      <==> p.amount <= LeadAvailable(db.ledger, db.dues, p.spaceId, lead)
  {
    var after := db.ledger + PayoutEntries(i, p);
    DuelessIsOutflow(db, p.spaceId);
    AvailabilitySumsToBalance(db, p.spaceId, lead);
    DebitTakesGross(db.ledger, i, p, OfDue(p.spaceId, None));
    forall x: DueId ensures DueNet(after, p.spaceId, x) == DueNet(db.ledger, p.spaceId, x) {
      DebitTakesGross(db.ledger, i, p, OfDue(p.spaceId, Some(x)));
    }
    LeadOutflowSparesCoReps(db.ledger, after, db.dues, p.spaceId, lead, p.amount);
  }

  // ------------------------------------------------------------------ outcomes

  /** The row closed without the money going out, and its gross credited back. */
  function GivenBackAs(db: Db, p: PayoutId, closed: Payout): Db
    requires p < |db.payouts|
  {
    var row := db.payouts[p];
    db.(payouts := db.payouts[p := closed],
        ledger := db.ledger + [Entry(PayoutReversal, Credit, row.amount, Tag(row.spaceId, row.dueId, None, Some(p)))])
  }

  /** What each outcome writes: nothing, unless the row is where the outcome finds it. */
  lemma OutcomesWrite(db: Db, p: PayoutId)
    requires Sound(db) && p < |db.payouts|
    ensures var row := db.payouts[p];
      && MarkProcessingTx(db, p) == (if row.status != Pending then db else db.(payouts := db.payouts[p := row.(status := Processing)]))
      && CompleteTx(db, p) == (if row.status != Processing then db
                               else db.(payouts := db.payouts[p := row.(status := Success, activeSpaceId := None)]))
      && FailTx(db, p) == (if row.status in {Pending, Processing} then GivenBackAs(db, p, row.(status := Failed, activeSpaceId := None))
                           else if row.status == Success then GivenBackAs(db, p, row.(status := Reversed, activeSpaceId := None))
                           else db)
      && CancelTx(db, p) == (if row.status != AwaitingApproval then db
                             else GivenBackAs(db, p, row.(status := Cancelled, activeSpaceId := None, approvalExpiresAt := None)))
  {
    if !PayoutRestored(db.payouts[p].status) { ReversalIsNew(db, p); }
  }

  /** What a whole dispatch writes, by the reply it got. */
  lemma DispatchWrites(db: Db, p: PayoutId, answer: Answer)
    requires Sound(db) && p < |db.payouts|
    ensures var row := db.payouts[p];
      DispatchEffect(db, p, answer) ==
        if row.status != Pending || (row.destinationId.Some? && answer == NoReply) then db
        else if row.destinationId.None? || answer in {Refused, Accepted(DidFail)} then GivenBackAs(db, p, row.(status := Failed, activeSpaceId := None))
        else if answer == Accepted(Succeeded) then db.(payouts := db.payouts[p := row.(status := Success, activeSpaceId := None)])
        else db.(payouts := db.payouts[p := row.(status := Processing)])
  {
    OutcomesWrite(db, p);
    if db.payouts[p].status == Pending && answer.Accepted? { AcceptedThen(db, p, answer.state); }
  }

  /** A report right after the acceptance it came with. */
  lemma AcceptedThen(db: Db, p: PayoutId, state: PayoutState)
    requires Sound(db) && p < |db.payouts| && db.payouts[p].status == Pending
    ensures var row := db.payouts[p];
      ReportTx(MarkProcessingTx(db, p), p, state) ==
        match state
        case StillMoving => db.(payouts := db.payouts[p := row.(status := Processing)])
        case Succeeded => db.(payouts := db.payouts[p := row.(status := Success, activeSpaceId := None)])
        case DidFail => GivenBackAs(db, p, row.(status := Failed, activeSpaceId := None))
  {
    var row, mid := db.payouts[p], MarkProcessingTx(db, p);
    OutcomesWrite(db, p);
    AcceptanceKeepsSound(db, p, mid);
    OutcomesWrite(mid, p);
    Rewritten(db.payouts, p, row.(status := Processing), row.(status := Success, activeSpaceId := None));
    Rewritten(db.payouts, p, row.(status := Processing), row.(status := Failed, activeSpaceId := None));
  }

  lemma Rewritten(payouts: seq<Payout>, p: PayoutId, a: Payout, b: Payout)
    requires p < |payouts|
    ensures payouts[p := a][p := b] == payouts[p := b]
  {
  }

  // ------------------------------------------------------------------ signatures

  /** Who may sign, and why anyone else may not: a withdrawal of that space, still waiting, before it
      expires, a signatory, and none who has decided already. */
  lemma MaySignExactly(db: Db, p: PayoutId, s: SpaceId, user: UserId, signatories: set<UserId>, now: Time)
    ensures SigningError(db, p, s, user, signatories, now) == Some(NotFound) <==> p >= |db.payouts| || db.payouts[p].spaceId != s
    ensures SigningError(db, p, s, user, signatories, now).None?
       <==> p < |db.payouts| && db.payouts[p].spaceId == s && db.payouts[p].status == AwaitingApproval
            && (db.payouts[p].approvalExpiresAt.None? || now < db.payouts[p].approvalExpiresAt.value)
            && user in signatories && (p, user) !in db.approvals
    ensures p < |db.payouts| && db.payouts[p].spaceId == s ==>
      var late := db.payouts[p].approvalExpiresAt.Some? && db.payouts[p].approvalExpiresAt.value <= now;
      var e := SigningError(db, p, s, user, signatories, now);
      && (e == Some(NotAwaitingApproval) <==> db.payouts[p].status != AwaitingApproval)
      && (e == Some(ApprovalExpired) <==> db.payouts[p].status == AwaitingApproval && late)
      && (e == Some(NotASignatory) <==> db.payouts[p].status == AwaitingApproval && !late && user !in signatories)
      && (e == Some(AlreadySigned) <==> db.payouts[p].status == AwaitingApproval && !late && user in signatories && (p, user) in db.approvals)
  {
  }

  /** Another signatory's approval is on record. */
  ghost predicate AnotherApproved(db: Db, p: PayoutId, user: UserId, signatories: set<UserId>) {
    exists v :: v in signatories && v != user && (p, v) in db.approvals && db.approvals[(p, v)] == Approved
  }

  /** A signature is recorded, and with another signatory's approval it releases the withdrawal. */
  lemma SignatureWrites(db: Db, p: PayoutId, user: UserId, signatories: set<UserId>)
    requires p < |db.payouts| && db.payouts[p].status == AwaitingApproval && (p, user) !in db.approvals && user in signatories
    ensures var signed := db.(approvals := db.approvals[(p, user) := Approved]);
      ApproveTx(db, p, user, signatories)
      == Ok(if AnotherApproved(db, p, user, signatories) then
              signed.(payouts := db.payouts[p := db.payouts[p].(status := Pending, approvalExpiresAt := None)])
            else signed)
  {
    var approvals := db.approvals[(p, user) := Approved];
    var both := ApprovedBy(approvals, p, signatories);
    assert user in both;
    if AnotherApproved(db, p, user, signatories) {
      var v :| v in signatories && v != user && (p, v) in db.approvals && db.approvals[(p, v)] == Approved;
      assert v in both - {user};
      assert |both - {user}| >= 1;
    } else {
      assert both == {user};
    }
  }

  /** What a whole approval writes. In time it never gives the balance back by itself: it records the
      signature of whoever may sign and sends off what that releases. Once the wait is over, it cancels
      the withdrawal whoever asks, gives its gross back, and releases nothing. */
  lemma ApprovalWrites(db: Db, p: PayoutId, s: SpaceId, user: UserId, signatories: set<UserId>, otpOk: bool, now: Time, answer: Answer)
    requires Sound(db)
    ensures var after := ApprovalEffect(db, p, s, user, signatories, otpOk, now, answer);
      if p >= |db.payouts| || db.payouts[p].spaceId != s || db.payouts[p].status != AwaitingApproval then after == db
      else
        var row, signed := db.payouts[p], db.(approvals := db.approvals[(p, user) := Approved]);
        if row.approvalExpiresAt.Some? && row.approvalExpiresAt.value <= now then
          after == GivenBackAs(db, p, row.(status := Cancelled, activeSpaceId := None, approvalExpiresAt := None))
        else if user !in signatories || (p, user) in db.approvals || !otpOk then after == db
        else if !AnotherApproved(db, p, user, signatories) then after == signed
        else after == DispatchEffect(signed.(payouts := db.payouts[p := row.(status := Pending, approvalExpiresAt := None)]), p, answer)
  {
    MaySignExactly(db, p, s, user, signatories, now);
    if p < |db.payouts| { OutcomesWrite(db, p); }
    if SigningError(db, p, s, user, signatories, now).None? { SignedThen(db, p, user, signatories, answer); }
  }

  /** A signature that does not release leaves the row waiting, so nothing is dispatched. */
  lemma SignedThen(db: Db, p: PayoutId, user: UserId, signatories: set<UserId>, answer: Answer)
    requires p < |db.payouts| && db.payouts[p].status == AwaitingApproval && (p, user) !in db.approvals && user in signatories
    ensures var signed := db.(approvals := db.approvals[(p, user) := Approved]);
      && ApproveTx(db, p, user, signatories).Ok?
      && |ApproveTx(db, p, user, signatories).value.payouts| == |db.payouts|
      && DispatchEffect(ApproveTx(db, p, user, signatories).value, p, answer) ==
           if AnotherApproved(db, p, user, signatories) then
             DispatchEffect(signed.(payouts := db.payouts[p := db.payouts[p].(status := Pending, approvalExpiresAt := None)]), p, answer)
           else signed
  {
    SignatureWrites(db, p, user, signatories);
  }

  /** A rejection leaves the signatory's refusal on record, ends the wait and gives the gross back. */
  lemma RejectionWrites(db: Db, p: PayoutId, user: UserId)
    requires Sound(db) && p < |db.payouts| && db.payouts[p].status == AwaitingApproval
    ensures CancelTx(RejectionTx(db, p, user), p)
         == GivenBackAs(db, p, db.payouts[p].(status := Cancelled, activeSpaceId := None, approvalExpiresAt := None))
            .(approvals := db.approvals[(p, user) := Rejected])
  {
    SignaturesKeepSound(db, RejectionTx(db, p, user));
    OutcomesWrite(RejectionTx(db, p, user), p);
  }

  // --------------------------------------------------------------------- expiry

  /** The withdrawals whose wait is over. */
  function Overdue(payouts: seq<Payout>, now: Time): set<PayoutId> {
    set p: PayoutId | p < |payouts| && payouts[p].status == AwaitingApproval && payouts[p].approvalExpiresAt.Some?
                      && payouts[p].approvalExpiresAt.value <= now
  }

  /** The expiry of a sweep cancels overdue withdrawals only, all of them if there are at most fifty and
      fifty of them otherwise, and changes no other row's status. */
  lemma ExpiryCancelsTheOverdue(db: Db, now: Time)
    ensures var ids := FirstBatch(StaleIds(db.payouts, now));
      && (forall i :: 0 <= i < |ids| ==> ids[i] < |db.payouts|)
      && var after, cancelled := CancelAll(db, ids), set p: PayoutId | p in ids;
         && cancelled <= Overdue(db.payouts, now)
         && |cancelled| == (if |Overdue(db.payouts, now)| <= 50 then |Overdue(db.payouts, now)| else 50)
         && forall p: PayoutId :: p < |db.payouts| ==>
              after.payouts[p].status == if p in cancelled then Cancelled else db.payouts[p].status
  {
    var ids := FirstBatch(StaleIds(db.payouts, now));
    BatchIsOverdue(db.payouts, now);
    forall p: PayoutId | p < |db.payouts|
      ensures CancelAll(db, ids).payouts[p].status == if p in ids then Cancelled else db.payouts[p].status
    {
      SweepCancelsExactly(db, ids, p);
    }
  }

  lemma BatchIsOverdue(payouts: seq<Payout>, now: Time)
    ensures var ids := FirstBatch(StaleIds(payouts, now));
      var cancelled := set p: PayoutId | p in ids;
      && (forall i :: 0 <= i < |ids| ==> ids[i] < |payouts| && payouts[ids[i]].status == AwaitingApproval)
      && cancelled <= Overdue(payouts, now)
      && |cancelled| == if |Overdue(payouts, now)| <= 50 then |Overdue(payouts, now)| else 50
  {
    var stale, ids := StaleIds(payouts, now), FirstBatch(StaleIds(payouts, now));
    assert forall i :: 0 <= i < |ids| ==> ids[i] == stale[i];
    assert Overdue(payouts, now) == set p: PayoutId | p in stale;
    SizeOf(stale);
    SizeOf(ids);
  }

  lemma {:induction false} SizeOf(ids: seq<PayoutId>)
    requires forall i, j :: 0 <= i < j < |ids| ==> ids[i] < ids[j]
    ensures |set p: PayoutId | p in ids| == |ids|
  {
    if ids != [] {
      var front, last := ids[..|ids| - 1], ids[|ids| - 1];
      SizeOf(front);
      assert ids == front + [last];
      assert (set p: PayoutId | p in ids) == (set p: PayoutId | p in front) + {last};
    }
  }
}
