/** Withdrawals (src/services/withdrawal.service.ts). Each `...Tx` function is one database
    transaction, committed whole or not at all; the methods run the source's steps on the
    tables and are proved to commit exactly that. */
module Withdrawal {
  import opened Wrappers
  import opened Money
  import opened StateMachine
  import opened Tables
  import opened Ledger
  import opened DueAvailability
  import opened Books

  const APPROVAL_WINDOW_MS: nat := 86_400_000

  /** What was found about the requester and the space before the transaction. */
  datatype Standing = Standing(
    known: bool, isRep: bool, isLead: bool, suspended: bool, frozen: bool, codeAccepted: bool,
    verified: bool, leadCanWithdraw: bool, targetFound: bool)

  /** A request, with its standing, the reference drawn for it, the space's mode and partner
      discount, and who its lead is. */
  datatype Request = Request(
    reference: Reference, spaceId: SpaceId, userId: UserId, amountKobo: int, dueId: Option<DueId>,
    standing: Standing, multisig: bool, discountPercent: int, lead: Option<UserId>, destinationId: Option<nat>)

  datatype WithdrawalError =
    | BelowMinPayout | BadDiscount | SpaceNotFound | NotARep | AccountSuspended
    | DueRequired | DueNotFound | DueNotAssigned
    | PayoutsFrozen | CodeRefused | KycNotVerified | LeadKycNotVerified | TargetNotFound
    | WithdrawalInProgress | InsufficientBalance

  // ------------------------------------------------------------------- request

  /** Which part of the balance a rep may take: a lead needs no due, anyone else needs their own. */
  function ScopeError(db: Db, req: Request): Option<WithdrawalError> {
    match req.dueId
    case None => if req.standing.isLead then None else Some(DueRequired)
    case Some(d) =>
      if d >= |db.dues| || db.dues[d].spaceId != req.spaceId then Some(DueNotFound)
      else if !req.standing.isLead && db.dues[d].assignedRepId != Some(req.userId) then Some(DueNotAssigned)
      else None
  }

  predicate InFlight(payouts: seq<Payout>, s: SpaceId) {
    exists i :: 0 <= i < |payouts| && payouts[i].activeSpaceId == Some(s)
  }

  function RequestError(db: Db, req: Request): Option<WithdrawalError> {
    if !IsSafeInteger(req.amountKobo) || req.amountKobo < MIN_PAYOUT_KOBO then Some(BelowMinPayout)
    else if ComputeWithdrawal(req.amountKobo, req.discountPercent).Err? then Some(BadDiscount)
    else if RequesterError(req.standing).Some? then RequesterError(req.standing)
    else if ScopeError(db, req).Some? then ScopeError(db, req)
    else if GateError(req.standing).Some? then GateError(req.standing)
    else FundsError(db, req)
  }

  function RequesterError(s: Standing): Option<WithdrawalError> {
    if !s.known then Some(SpaceNotFound) else if !s.isRep then Some(NotARep) else if s.suspended then Some(AccountSuspended) else None
  }

  function GateError(s: Standing): Option<WithdrawalError> {
    if s.frozen then Some(PayoutsFrozen)
    else if !s.codeAccepted then Some(CodeRefused)
    else if !s.verified then Some(KycNotVerified)
    else if !s.leadCanWithdraw then Some(if s.isLead then KycNotVerified else LeadKycNotVerified)
    else if !s.targetFound then Some(TargetNotFound)
    else None
  }

  predicate Referenced(payouts: seq<Payout>, r: Reference) {
    exists i :: 0 <= i < |payouts| && payouts[i].reference == r
  }

  /** The locked checks: nothing else in flight, enough in the space and in the due; and the
      reference is unique, whose breach the source reports as a withdrawal in progress. */
  function FundsError(db: Db, req: Request): Option<WithdrawalError> {
    if InFlight(db.payouts, req.spaceId) then Some(WithdrawalInProgress)
    else if req.amountKobo > SpaceBalance(db.ledger, req.spaceId) then Some(InsufficientBalance)
    else if req.dueId.Some? && req.amountKobo > Available(db.ledger, db.dues, req.spaceId, req.lead, req.dueId.value)
      then Some(InsufficientBalance)
    else if Referenced(db.payouts, req.reference) then Some(WithdrawalInProgress)
    else None
  }

  function NewPayout(req: Request, b: Breakdown, now: Time): Payout {
    Payout(req.reference, req.spaceId, req.dueId, b.gross, b.fee, b.net,
           if req.multisig then AwaitingApproval else Pending,
           Some(req.spaceId),
           if req.multisig then Some(now + APPROVAL_WINDOW_MS) else None,
           req.destinationId, req.userId)
  }

  function RequestTx(db: Db, req: Request, now: Time): Result<Db, WithdrawalError> {
    match RequestError(db, req)
    case Some(e) => Err(e)
    case None => Ok(AddPayout(db, NewPayout(req, ComputeWithdrawal(req.amountKobo, req.discountPercent).value, now)))
  }

  lemma NewPayoutOk(db: Db, req: Request, now: Time)
    requires Sound(db) && RequestError(db, req).None?
    ensures var p := NewPayout(req, ComputeWithdrawal(req.amountKobo, req.discountPercent).value, now);
      && PayoutOk(db.dues, p) && PayoutActive(p.status)
      && p.amount == req.amountKobo <= SpaceBalance(db.ledger, p.spaceId)
      && (p.dueId.Some? ==> p.amount <= Available(db.ledger, db.dues, p.spaceId, req.lead, p.dueId.value)
                                     <= DueNet(db.ledger, p.spaceId, p.dueId.value))
      && forall i :: 0 <= i < |db.payouts| && PayoutActive(db.payouts[i].status) ==> db.payouts[i].spaceId != p.spaceId
  {
    NewPayoutSplits(db, req, now);
    NewPayoutFits(db, req);
    NothingElseInFlight(db, req.spaceId);
  }

  lemma NewPayoutSplits(db: Db, req: Request, now: Time)
    requires RequestError(db, req).None?
    ensures ComputeWithdrawal(req.amountKobo, req.discountPercent).Ok?
    ensures var p := NewPayout(req, ComputeWithdrawal(req.amountKobo, req.discountPercent).value, now);
      PayoutOk(db.dues, p) && PayoutActive(p.status) && p.amount == req.amountKobo
  {
    WithdrawalSplits(req.amountKobo, req.discountPercent);
  }

  lemma NewPayoutFits(db: Db, req: Request)
    requires RequestError(db, req).None?
    ensures !InFlight(db.payouts, req.spaceId) && req.amountKobo <= SpaceBalance(db.ledger, req.spaceId)
    ensures req.dueId.Some? ==>
      req.amountKobo <= Available(db.ledger, db.dues, req.spaceId, req.lead, req.dueId.value) <= DueNet(db.ledger, req.spaceId, req.dueId.value)
  {
    assert FundsError(db, req).None?;
    if req.dueId.Some? { AvailableBounds(db.ledger, db.dues, req.spaceId, req.lead, req.dueId.value); }
  }

  lemma NothingElseInFlight(db: Db, s: SpaceId)
    requires RowsOk(db) && !InFlight(db.payouts, s)
    ensures forall i :: 0 <= i < |db.payouts| && PayoutActive(db.payouts[i].status) ==> db.payouts[i].spaceId != s
  {
    forall i | 0 <= i < |db.payouts| && PayoutActive(db.payouts[i].status) ensures db.payouts[i].spaceId != s {
      assert PayoutOk(db.dues, db.payouts[i]);
    }
  }

  lemma RequestKeepsSound(db: Db, req: Request, now: Time)
    requires Sound(db) && RequestTx(db, req, now).Ok?
    ensures Sound(RequestTx(db, req, now).value)
  {
    NewPayoutOk(db, req, now);
    AddPayoutKeepsSound(db, NewPayout(req, ComputeWithdrawal(req.amountKobo, req.discountPercent).value, now));
  }

  lemma RequestKeepsReferences(db: Db, req: Request, now: Time)
    requires ReferencesApart(db.payouts) && RequestTx(db, req, now).Ok?
    ensures ReferencesApart(RequestTx(db, req, now).value.payouts)
  {
  }

  /** A withdrawal drawn on one due lowers what that due can pay out by exactly its gross, and
      leaves every other due of the space as it was. */
  lemma RequestTouchesOneDue(db: Db, req: Request, now: Time, e: DueId)
    requires Sound(db) && RequestTx(db, req, now).Ok? && req.dueId.Some?
    ensures var db' := RequestTx(db, req, now).value;
      Available(db'.ledger, db'.dues, req.spaceId, req.lead, e)
      == Available(db.ledger, db.dues, req.spaceId, req.lead, e) - if Some(e) == req.dueId then req.amountKobo else 0
  {
    var p := NewPayout(req, ComputeWithdrawal(req.amountKobo, req.discountPercent).value, now);
    NewPayoutOk(db, req, now);
    DebitedExactly(db, p);
    DebitTouchesOneDue(db.ledger, db.dues, |db.payouts|, p, req.lead, e);
  }

  lemma DebitTouchesOneDue(ledger: seq<Entry>, dues: seq<Due>, i: PayoutId, p: Payout, lead: Option<UserId>, e: DueId)
    requires PayoutOk(dues, p) && !PayoutRestored(p.status) && p.dueId.Some?
    requires p.amount <= Available(ledger, dues, p.spaceId, lead, p.dueId.value)
    ensures Available(ledger + PayoutEntries(i, p), dues, p.spaceId, lead, e)
         == Available(ledger, dues, p.spaceId, lead, e) - if Some(e) == p.dueId then p.amount else 0
  {
    var s, d, l := p.spaceId, p.dueId.value, ledger + PayoutEntries(i, p);
    DebitTakesGross(ledger, i, p, OfDue(s, None));
    forall x: DueId ensures DueNet(l, s, x) == DueNet(ledger, s, x) - if x == d then p.amount else 0 {
      DebitTakesGross(ledger, i, p, OfDue(s, Some(x)));
    }
    OutflowTouchesOneDue(ledger, l, dues, s, lead, d, p.amount, e);
  }

  method Debit(db: Database, i: PayoutId, p: Payout)
    requires Acceptable(DebitEntry(i, p)) && (p.feeKobo != 0 ==> Acceptable(FeeEntry(i, p)))
    modifies db`ledger
    ensures db.ledger == Debited(old(db.ledger), i, p)
  {
    var _ := AppendLedgerEntry(db, DebitEntry(i, p));
    if p.feeKobo == 0 { return; }
    var _ := AppendLedgerEntry(db, FeeEntry(i, p));
  }

  method CheckFunds(db: Database, req: Request) returns (e: Option<WithdrawalError>)
    requires ScopeError(db.Snapshot(), req).None?
    ensures e == FundsError(db.Snapshot(), req)
  {
    if InFlight(db.payouts, req.spaceId) { return Some(WithdrawalInProgress); }
    if req.amountKobo > SpaceBalance(db.ledger, req.spaceId) { return Some(InsufficientBalance); }
    if req.dueId.Some? {
      var available := GetDueAvailability(db, req.spaceId, req.lead);
      var left := if req.dueId.value in available then available[req.dueId.value] else 0;
      if req.amountKobo > left { return Some(InsufficientBalance); }
    }
    if Referenced(db.payouts, req.reference) { return Some(WithdrawalInProgress); }
    return None;
  }

  /** Every test a request must pass, in order. */
  method Examine(db: Database, req: Request) returns (r: Result<Breakdown, WithdrawalError>)
    ensures r == match RequestError(db.Snapshot(), req)
      case Some(e) => Err(e)
      case None => Ok(ComputeWithdrawal(req.amountKobo, req.discountPercent).value)
  {
    if !IsSafeInteger(req.amountKobo) || req.amountKobo < MIN_PAYOUT_KOBO { return Err(BelowMinPayout); }
    var breakdown := ComputeWithdrawal(req.amountKobo, req.discountPercent);
    if breakdown.Err? { return Err(BadDiscount); }
    var requester := RequesterError(req.standing);
    if requester.Some? { return Err(requester.value); }
    var scope := ScopeError(db.Snapshot(), req);
    if scope.Some? { return Err(scope.value); }
    var gate := GateError(req.standing);
    if gate.Some? { return Err(gate.value); }
    var funds := CheckFunds(db, req);
    if funds.Some? { return Err(funds.value); }
    return Ok(breakdown.value);
  }

  method CreateWithdrawal(db: Database, req: Request, now: Time) returns (r: Result<PayoutId, WithdrawalError>)
    modifies db
    ensures match RequestTx(old(db.Snapshot()), req, now)
      case Err(e) => r == Err(e) && db.Snapshot() == old(db.Snapshot())
      case Ok(after) => r == Ok(|old(db.payouts)|) && db.Snapshot() == after
  {
    var examined := Examine(db, req);
    if examined.Err? { return Err(examined.error); }
    var created := NewPayout(req, examined.value, now);
    var id := |db.payouts|;
    WithdrawalSplits(req.amountKobo, req.discountPercent);
    db.payouts := db.payouts + [created];
    Debit(db, id, created);
    return Ok(id);
  }

  // ------------------------------------------------------------------ outcomes

  function WithStatus(p: Payout, to: PayoutStatus): Payout {
    p.(status := to, activeSpaceId := if PayoutActive(to) then p.activeSpaceId else None)
  }

  /** The first reply of the provider: the payout exists there. */
  function MarkProcessingTx(db: Db, p: PayoutId): Db
    requires p < |db.payouts|
  {
    if db.payouts[p].status != Pending then db
    else db.(payouts := db.payouts[p := WithStatus(db.payouts[p], Processing)])
  }

  function CompleteTx(db: Db, p: PayoutId): Db
    requires p < |db.payouts|
  {
    if !CanTransitionPayout(db.payouts[p].status, Success) then db
    else db.(payouts := db.payouts[p := WithStatus(db.payouts[p], Success)])
  }

  function FailureStatus(from: PayoutStatus): PayoutStatus { if from == Success then Reversed else Failed }

  function FailTx(db: Db, p: PayoutId): Db
    requires p < |db.payouts|
  {
    var row := db.payouts[p];
    var to := FailureStatus(row.status);
    if !CanTransitionPayout(row.status, to) then db else Restore(db, p, WithStatus(row, to))
  }

  function CancelTx(db: Db, p: PayoutId): Db
    requires p < |db.payouts|
  {
    var row := db.payouts[p];
    if !CanTransitionPayout(row.status, Cancelled) then db
    else Restore(db, p, WithStatus(row, Cancelled).(approvalExpiresAt := None))
  }

  lemma AcceptanceKeepsSound(db: Db, p: PayoutId, after: Db)
    requires Sound(db) && p < |db.payouts| && after == MarkProcessingTx(db, p)
    ensures Sound(after)
  {
    assert PayoutOk(db.dues, db.payouts[p]);
    if db.payouts[p].status == Pending { StatusKeepsSound(db, p, WithStatus(db.payouts[p], Processing)); }
  }

  lemma CompleteKeepsSound(db: Db, p: PayoutId, after: Db)
    requires Sound(db) && p < |db.payouts| && after == CompleteTx(db, p)
    ensures Sound(after)
  {
    assert PayoutOk(db.dues, db.payouts[p]);
    if CanTransitionPayout(db.payouts[p].status, Success) { StatusKeepsSound(db, p, WithStatus(db.payouts[p], Success)); }
  }

  lemma FailKeepsSound(db: Db, p: PayoutId, after: Db)
    requires Sound(db) && p < |db.payouts| && after == FailTx(db, p)
    ensures Sound(after)
  {
    var row := db.payouts[p];
    if CanTransitionPayout(row.status, FailureStatus(row.status)) {
      RestoreKeepsSound(db, p, WithStatus(row, FailureStatus(row.status)));
    }
  }

  lemma CancelKeepsSound(db: Db, p: PayoutId, after: Db)
    requires Sound(db) && p < |db.payouts| && after == CancelTx(db, p)
    ensures Sound(after)
  {
    var row := db.payouts[p];
    if CanTransitionPayout(row.status, Cancelled) {
      RestoreKeepsSound(db, p, WithStatus(row, Cancelled).(approvalExpiresAt := None));
    }
  }

  /** The schema's own guarantee on a stored withdrawal: its gross is a positive amount. */
  predicate Restorable(p: Payout) { 0 < p.amount && IsSafeInteger(p.amount) }

  method RestoreBalance(db: Database, i: PayoutId, p: Payout)
    requires Restorable(p)
    modifies db`ledger
    ensures db.ledger == Post(old(db.ledger), ReversalEntry(i, p))
  {
    var _ := AppendLedgerEntry(db, ReversalEntry(i, p));
  }

  /** The row with this reference. */
  function FindPayout(payouts: seq<Payout>, r: Reference): (p: Option<PayoutId>)
    ensures p.Some? ==> p.value < |payouts| && payouts[p.value].reference == r
    ensures p.None? ==> forall i: PayoutId :: i < |payouts| ==> payouts[i].reference != r
  {
    if payouts == [] then None
    else
      var n := |payouts| - 1;
      if payouts[n].reference == r then Some(n) else FindPayout(payouts[..n], r)
  }

  predicate IsProcessing(payouts: seq<Payout>, r: Reference) {
    var p := FindPayout(payouts, r);
    p.Some? && payouts[p.value].status == Processing
  }

  /** The schema's unique key on references. */
  ghost predicate ReferencesApart(payouts: seq<Payout>) {
    forall i, j :: 0 <= i < j < |payouts| ==> payouts[i].reference != payouts[j].reference
  }

  /** A row's own reference finds that row and no other. */
  lemma FindsItself(payouts: seq<Payout>, p: PayoutId)
    requires ReferencesApart(payouts) && p < |payouts|
    ensures FindPayout(payouts, payouts[p].reference) == Some(p)
  {
    var found := FindPayout(payouts, payouts[p].reference).value;
    assert found == p || found < p || p < found;
  }

  /** Closes the processing row with this reference, if there is one. */
  method CompletePayout(db: Database, reference: Reference) returns (done: bool)
    modifies db
    ensures db.Snapshot() == match FindPayout(old(db.payouts), reference)
      case None => old(db.Snapshot())
      case Some(p) => CompleteTx(old(db.Snapshot()), p)
    ensures done <==> IsProcessing(old(db.payouts), reference)
  {
    var found := FindPayout(db.payouts, reference);
    if found.None? { return false; }
    var p := db.payouts[found.value];
    if p.status == Success { return false; }
    if !CanTransitionPayout(p.status, Success) { return false; }
    db.payouts := db.payouts[found.value := p.(status := Success, activeSpaceId := None)];
    return true;
  }

  /** Closes an open or successful row as `FailureStatus` says and restores its gross. */
  method FailPayout(db: Database, payoutId: PayoutId) returns (done: bool)
    requires payoutId < |db.payouts| && Restorable(db.payouts[payoutId])
    modifies db
    ensures db.Snapshot() == FailTx(old(db.Snapshot()), payoutId)
    ensures done <==> old(db.payouts)[payoutId].status in {Pending, Processing, Success}
  {
    var p := db.payouts[payoutId];
    var to := if p.status == Success then Reversed else Failed;
    if !CanTransitionPayout(p.status, to) { return false; }
    db.payouts := db.payouts[payoutId := p.(status := to, activeSpaceId := None)];
    RestoreBalance(db, payoutId, p);
    return true;
  }

  method FailPayoutByReference(db: Database, reference: Reference) returns (done: bool)
    requires forall p: PayoutId :: p < |db.payouts| && db.payouts[p].reference == reference ==> Restorable(db.payouts[p])
    modifies db
    ensures db.Snapshot() == match FindPayout(old(db.payouts), reference)
      case None => old(db.Snapshot())
      case Some(p) => FailTx(old(db.Snapshot()), p)
  {
    var found := FindPayout(db.payouts, reference);
    if found.None? { return false; }
    done := FailPayout(db, found.value);
  }

  /** Closes a waiting row and restores its gross; on any other row nothing happens. */
  method CancelPayout(db: Database, payoutId: PayoutId) returns (done: bool)
    requires payoutId < |db.payouts| && Restorable(db.payouts[payoutId])
    modifies db
    ensures db.Snapshot() == CancelTx(old(db.Snapshot()), payoutId)
    ensures done <==> old(db.payouts)[payoutId].status == AwaitingApproval
  {
    var p := db.payouts[payoutId];
    if !CanTransitionPayout(p.status, Cancelled) { return false; }
    db.payouts := db.payouts[payoutId := p.(status := Cancelled, activeSpaceId := None, approvalExpiresAt := None)];
    RestoreBalance(db, payoutId, p);
    return true;
  }

  // ------------------------------------------------------------------ dispatch

  datatype PayoutState = StillMoving | Succeeded | DidFail

  /** How one call to the provider ended: it took the payout, it refused it for good, or the
      reply was lost (a timeout or a server error). */
  datatype Answer = Accepted(state: PayoutState) | Refused | NoReply

  function ReportTx(db: Db, p: PayoutId, state: PayoutState): Db
    requires p < |db.payouts|
  {
    match state case StillMoving => db case Succeeded => CompleteTx(db, p) case DidFail => FailTx(db, p)
  }

  /** What a dispatch leaves behind when nothing else touches the tables meanwhile. */
  function DispatchEffect(db: Db, p: PayoutId, answer: Answer): (r: Db)
    requires p < |db.payouts|
    ensures |r.payouts| == |db.payouts|
  {
    if db.payouts[p].status != Pending then db
    else if db.payouts[p].destinationId.None? then FailTx(db, p)
    else match answer
      case Accepted(state) => ReportTx(MarkProcessingTx(db, p), p, state)
      case Refused => FailTx(db, p)
      case NoReply => db
  }

  method DispatchPayout(db: Database, payoutId: PayoutId, answer: Answer)
    requires payoutId < |db.payouts| ==> Restorable(db.payouts[payoutId])
    requires ReferencesApart(db.payouts)
    modifies db
    ensures db.Snapshot() == if payoutId < |old(db.payouts)| then DispatchEffect(old(db.Snapshot()), payoutId, answer) else old(db.Snapshot())
  {
    if payoutId >= |db.payouts| { return; }
    var payout := db.payouts[payoutId];
    if payout.status != Pending { return; }
    if payout.destinationId.None? {
      var _ := FailPayout(db, payoutId);
      return;
    }
    match answer {
      case Accepted(state) =>
        db.payouts := db.payouts[payoutId := payout.(status := Processing)];
        FindsItself(db.payouts, payoutId);
        if state == Succeeded { var _ := CompletePayout(db, payout.reference); }
        if state == DidFail { var _ := FailPayout(db, payoutId); }
      case Refused =>
        var _ := FailPayout(db, payoutId);
      case NoReply =>
    }
  }

  /** A timeout alone never gives money back, and neither does any answer that leaves the
      payout moving or done: only a refusal, a failure or a missing destination does. */
  lemma DispatchRestoresOnlyOnRefusal(db: Db, p: PayoutId, answer: Answer)
    requires p < |db.payouts| && !PayoutRestored(db.payouts[p].status)
    ensures PayoutRestored(DispatchEffect(db, p, answer).payouts[p].status)
       <==> db.payouts[p].status == Pending && (db.payouts[p].destinationId.None? || answer in {Refused, Accepted(DidFail)})
    ensures answer == NoReply && db.payouts[p].destinationId.Some? ==> DispatchEffect(db, p, answer) == db
  {
  }

  /** A request that creates a pending withdrawal dispatches it at once. */
  method RequestWithdrawal(db: Database, req: Request, now: Time, answer: Answer) returns (r: Result<PayoutId, WithdrawalError>)
    requires ReferencesApart(db.payouts)
    modifies db
    ensures match RequestTx(old(db.Snapshot()), req, now)
      case Err(e) => r == Err(e) && db.Snapshot() == old(db.Snapshot())
      case Ok(after) =>
        && r == Ok(|old(db.payouts)|) && |after.payouts| == |old(db.payouts)| + 1
        && db.Snapshot() == if req.multisig then after else DispatchEffect(after, r.value, answer)
  {
    r := CreateWithdrawal(db, req, now);
    if r.Err? { return; }
    if db.payouts[r.value].status == Pending {
      DispatchPayout(db, r.value, answer);
    }
  }

  /** Writes down what the provider's record says of a row that is still processing. */
  method RefreshPayout(db: Database, payoutId: PayoutId, state: PayoutState)
    requires payoutId < |db.payouts| ==> Restorable(db.payouts[payoutId])
    requires ReferencesApart(db.payouts)
    modifies db
    ensures db.Snapshot() == if payoutId < |old(db.payouts)| && old(db.payouts)[payoutId].status == Processing
      then ReportTx(old(db.Snapshot()), payoutId, state) else old(db.Snapshot())
  {
    if payoutId >= |db.payouts| || db.payouts[payoutId].status != Processing { return; }
    FindsItself(db.payouts, payoutId);
    if state == Succeeded {
      var _ := CompletePayout(db, db.payouts[payoutId].reference);
    } else if state == DidFail {
      var _ := FailPayout(db, payoutId);
    }
  }

  // ----------------------------------------------------- reports in any order

  function ApplyReports(db: Db, p: PayoutId, reports: seq<PayoutState>): (r: Db)
    requires p < |db.payouts|
    ensures |r.payouts| == |db.payouts|
  {
    if reports == [] then db else ReportTx(ApplyReports(db, p, reports[..|reports| - 1]), p, reports[|reports| - 1])
  }

  function StatusAfter(reports: seq<PayoutState>): PayoutStatus {
    if reports == [] then Processing
    else
      var before := StatusAfter(reports[..|reports| - 1]);
      StatusOn(before, reports[|reports| - 1])
  }

  function StatusOn(before: PayoutStatus, report: PayoutState): PayoutStatus {
    match report
    case StillMoving => before
    case Succeeded => if before == Processing then Success else before
    case DidFail => if before == Processing then Failed else if before == Success then Reversed else before
  }

  lemma ReportKeepsSound(db: Db, p: PayoutId, state: PayoutState, after: Db)
    requires Sound(db) && p < |db.payouts| && after == ReportTx(db, p, state)
    ensures Sound(after)
  {
    if state == Succeeded { CompleteKeepsSound(db, p, after); }
    if state == DidFail { FailKeepsSound(db, p, after); }
  }

  /** The first failure to arrive writes the reversal; it is the only thing it writes. */
  lemma FailureWritesReversal(db: Db, p: PayoutId)
    requires Sound(db) && p < |db.payouts| && db.payouts[p].status in {Pending, Processing, Success}
    ensures FailTx(db, p).ledger == db.ledger + [ReversalEntry(p, db.payouts[p])]
    ensures FailTx(db, p).payouts[p].status == FailureStatus(db.payouts[p].status)
  {
    ReversalIsNew(db, p);
  }

  lemma {:induction false} ReportsKeepSound(db: Db, p: PayoutId, reports: seq<PayoutState>)
    requires Sound(db) && p < |db.payouts|
    ensures Sound(ApplyReports(db, p, reports))
  {
    if reports != [] {
      ReportsKeepSound(db, p, reports[..|reports| - 1]);
      ReportKeepsSound(ApplyReports(db, p, reports[..|reports| - 1]), p, reports[|reports| - 1], ApplyReports(db, p, reports));
    }
  }

  lemma {:induction false} StatusAfterMeaning(reports: seq<PayoutState>)
    ensures DidFail in reports <==> PayoutRestored(StatusAfter(reports))
    ensures StatusAfter(reports) in {Processing, Success, Failed, Reversed}
    ensures StatusAfter(reports) == Processing <==> DidFail !in reports && Succeeded !in reports
    ensures StatusAfter(reports) == Success <==> DidFail !in reports && Succeeded in reports
  {
    if reports != [] {
      StatusAfterMeaning(reports[..|reports| - 1]);
      assert reports == reports[..|reports| - 1] + [reports[|reports| - 1]];
    }
  }

  lemma {:induction false} ReportsFold(db: Db, p: PayoutId, reports: seq<PayoutState>)
    requires Sound(db) && p < |db.payouts| && db.payouts[p].status == Processing
    ensures ApplyReports(db, p, reports).payouts[p].status == StatusAfter(reports)
    ensures ApplyReports(db, p, reports).ledger == db.ledger + if DidFail in reports then [ReversalEntry(p, db.payouts[p])] else []
  {
    if reports != [] {
      var front, last := reports[..|reports| - 1], reports[|reports| - 1];
      ReportsFold(db, p, front);
      FoldStep(db, p, front, last, ApplyReports(db, p, front), ApplyReports(db, p, reports));
      LastReportIn(reports);
    }
  }

  lemma LastReportIn(reports: seq<PayoutState>)
    requires reports != []
    ensures DidFail in reports <==> DidFail in reports[..|reports| - 1] || reports[|reports| - 1] == DidFail
  {
    assert reports == reports[..|reports| - 1] + [reports[|reports| - 1]];
  }

  /** One more report, `front` having led to `mid`. */
  lemma FoldStep(db: Db, p: PayoutId, front: seq<PayoutState>, last: PayoutState, mid: Db, after: Db)
    requires Sound(db) && p < |db.payouts| && mid == ApplyReports(db, p, front) && after == ReportTx(mid, p, last)
    requires mid.payouts[p].status == StatusAfter(front)
    requires mid.ledger == db.ledger + if DidFail in front then [ReversalEntry(p, db.payouts[p])] else []
    ensures p < |after.payouts| && after.payouts[p].status == StatusOn(StatusAfter(front), last)
    ensures after.ledger == db.ledger + if DidFail in front || last == DidFail then [ReversalEntry(p, db.payouts[p])] else []
  {
    ReportsKeepSound(db, p, front);
    TermsStay(db, p, front);
    StatusAfterMeaning(front);
    ReportOnto(mid, p, last, after);
  }

  lemma ReportOnto(mid: Db, p: PayoutId, last: PayoutState, after: Db)
    requires Sound(mid) && p < |mid.payouts| && after == ReportTx(mid, p, last)
    requires mid.payouts[p].status in {Processing, Success, Failed, Reversed}
    ensures p < |after.payouts| && after.payouts[p].status == StatusOn(mid.payouts[p].status, last)
    ensures after.ledger
         == mid.ledger + if last == DidFail && mid.payouts[p].status in {Processing, Success} then [ReversalEntry(p, mid.payouts[p])] else []
  {
    if last == DidFail { FailureOnto(mid, p, after); } else { NoFailureOnto(mid, p, last); }
  }

  lemma NoFailureOnto(mid: Db, p: PayoutId, last: PayoutState)
    requires p < |mid.payouts| && last != DidFail && mid.payouts[p].status in {Processing, Success, Failed, Reversed}
    ensures var after := ReportTx(mid, p, last);
      p < |after.payouts| && after.payouts[p].status == StatusOn(mid.payouts[p].status, last) && after.ledger == mid.ledger
  {
  }

  lemma FailureOnto(mid: Db, p: PayoutId, after: Db)
    requires Sound(mid) && p < |mid.payouts| && after == FailTx(mid, p)
    requires mid.payouts[p].status in {Processing, Success, Failed, Reversed}
    ensures p < |after.payouts| && after.payouts[p].status == StatusOn(mid.payouts[p].status, DidFail)
    ensures after.ledger == mid.ledger + if mid.payouts[p].status in {Processing, Success} then [ReversalEntry(p, mid.payouts[p])] else []
  {
    if mid.payouts[p].status in {Processing, Success} { FailureWritesReversal(mid, p); }
  }

  lemma {:induction false} TermsStay(db: Db, p: PayoutId, reports: seq<PayoutState>)
    requires p < |db.payouts|
    ensures SameTerms(db.payouts[p], ApplyReports(db, p, reports).payouts[p])
  {
    if reports != [] { TermsStay(db, p, reports[..|reports| - 1]); }
  }

  /** Once the provider has the payout, the order, repetition and loss of its reports do not
      matter to the ledger: it nets to minus the gross if no failure ever arrived and to nothing
      otherwise, with one reversal entry exactly when a failure arrived. */
  lemma ReportsCommuteOnTheLedger(db: Db, p: PayoutId, a: seq<PayoutState>, b: seq<PayoutState>)
    requires Sound(db) && p < |db.payouts| && db.payouts[p].status == Processing
    requires DidFail in a <==> DidFail in b
    ensures ApplyReports(db, p, a).ledger == ApplyReports(db, p, b).ledger
    ensures |ApplyReports(db, p, a).ledger| == |db.ledger| + if DidFail in a then 1 else 0
  {
    ReportsFold(db, p, a);
    ReportsFold(db, p, b);
  }
}
