/** Two-of-three signatures on a multisig withdrawal (src/services/withdrawalApproval.service.ts). */
module Approval {
  import opened Wrappers
  import opened StateMachine
  import opened Tables
  import opened Books
  import opened Withdrawal

  const REQUIRED_APPROVALS: nat := 2

  datatype SignError = NotFound | NotAwaitingApproval | ApprovalExpired | NotASignatory | AlreadySigned | WrongOtp

  /** The signatories, among those given, whose stored decision approves the withdrawal. */
  function ApprovedBy(approvals: map<(PayoutId, UserId), Decision>, p: PayoutId, signatories: set<UserId>): set<UserId> {
    set u | u in signatories && (p, u) in approvals && approvals[(p, u)] == Approved
  }

  /** Both signatures are in: the withdrawal may be sent. */
  function Release(db: Db, p: PayoutId): Db
    requires p < |db.payouts|
  {
    db.(payouts := db.payouts[p := WithStatus(db.payouts[p], Pending).(approvalExpiresAt := None)])
  }

  /** The locked part of an approval: one signature per signatory, and the second one counted
      among the signatories read beforehand releases the withdrawal. */
  function ApproveTx(db: Db, p: PayoutId, user: UserId, signatories: set<UserId>): Result<Db, SignError>
    requires p < |db.payouts|
  {
    if db.payouts[p].status != AwaitingApproval then Err(NotAwaitingApproval)
    else if (p, user) in db.approvals then Err(AlreadySigned)
    else
      var signed := db.(approvals := db.approvals[(p, user) := Approved]);
      if |ApprovedBy(signed.approvals, p, signatories)| >= REQUIRED_APPROVALS then Ok(Release(signed, p)) else Ok(signed)
  }

  function RejectionTx(db: Db, p: PayoutId, user: UserId): Db {
    db.(approvals := db.approvals[(p, user) := Rejected])
  }

  /** Why this user may not sign now, if they may not. */
  function SigningError(db: Db, p: PayoutId, s: SpaceId, user: UserId, signatories: set<UserId>, now: Time): Option<SignError> {
    if p >= |db.payouts| || db.payouts[p].spaceId != s then Some(NotFound)
    else if db.payouts[p].status != AwaitingApproval then Some(NotAwaitingApproval)
    else if db.payouts[p].approvalExpiresAt.Some? && db.payouts[p].approvalExpiresAt.value <= now then Some(ApprovalExpired)
    else if user !in signatories then Some(NotASignatory)
    else if (p, user) in db.approvals then Some(AlreadySigned)
    else None
  }

  method LoadForSigning(db: Database, p: PayoutId, s: SpaceId, user: UserId, signatories: set<UserId>, now: Time)
    returns (e: Option<SignError>)
    requires p < |db.payouts| ==> Restorable(db.payouts[p])
    modifies db
    ensures e == SigningError(old(db.Snapshot()), p, s, user, signatories, now)
    ensures db.Snapshot() == if e == Some(ApprovalExpired) then CancelTx(old(db.Snapshot()), p) else old(db.Snapshot())
  {
    if p >= |db.payouts| || db.payouts[p].spaceId != s { return Some(NotFound); }
    var payout := db.payouts[p];
    if payout.status != AwaitingApproval { return Some(NotAwaitingApproval); }
    if payout.approvalExpiresAt.Some? && payout.approvalExpiresAt.value <= now {
      var _ := CancelPayout(db, p);
      return Some(ApprovalExpired);
    }
    if user !in signatories { return Some(NotASignatory); }
    if (p, user) in db.approvals { return Some(AlreadySigned); }
    return None;
  }

  method CastApproval(db: Database, p: PayoutId, user: UserId, signatories: set<UserId>) returns (r: Result<nat, SignError>)
    requires p < |db.payouts|
    modifies db
    ensures match ApproveTx(old(db.Snapshot()), p, user, signatories)
      case Err(e) => r == Err(e) && db.Snapshot() == old(db.Snapshot())
      case Ok(after) => r == Ok(|ApprovedBy(after.approvals, p, signatories)|) && db.Snapshot() == after
  {
    var payout := db.payouts[p];
    if payout.status != AwaitingApproval { return Err(NotAwaitingApproval); }
    if (p, user) in db.approvals { return Err(AlreadySigned); }
    db.approvals := db.approvals[(p, user) := Approved];
    var count := |ApprovedBy(db.approvals, p, signatories)|;
    if count >= REQUIRED_APPROVALS {
      db.payouts := db.payouts[p := payout.(status := Pending, approvalExpiresAt := None)];
    }
    return Ok(count);
  }

  /** What a whole approval request leaves behind when nothing interleaves. */
  function ApprovalEffect(db: Db, p: PayoutId, s: SpaceId, user: UserId, signatories: set<UserId>, otpOk: bool, now: Time, answer: Answer): Db {
    match SigningError(db, p, s, user, signatories, now)
    case Some(e) => if e == ApprovalExpired then CancelTx(db, p) else db
    case None =>
      if !otpOk then db
      else match ApproveTx(db, p, user, signatories)
        case Err(_) => db
        case Ok(after) => DispatchEffect(after, p, answer)
  }

  method ApprovePayout(db: Database, p: PayoutId, s: SpaceId, user: UserId, signatories: set<UserId>, otpOk: bool, now: Time, answer: Answer)
    returns (r: Result<nat, SignError>)
    requires p < |db.payouts| ==> Restorable(db.payouts[p])
    requires ReferencesApart(db.payouts)
    modifies db
    ensures db.Snapshot() == ApprovalEffect(old(db.Snapshot()), p, s, user, signatories, otpOk, now, answer)
    ensures r.Ok? <==> SigningError(old(db.Snapshot()), p, s, user, signatories, now).None? && otpOk
  {
    var refusal := LoadForSigning(db, p, s, user, signatories, now);
    if refusal.Some? { return Err(refusal.value); }
    if !otpOk { return Err(WrongOtp); }
    r := CastApproval(db, p, user, signatories);
    if r.Ok? && db.payouts[p].status == Pending {
      DispatchPayout(db, p, answer);
    }
  }

  /** Ends the wait: signatories leave a rejection on record first, the requester does not. */
  method RejectPayout(db: Database, p: PayoutId, s: SpaceId, user: UserId, signatories: set<UserId>) returns (r: Result<(), SignError>)
    requires p < |db.payouts| ==> Restorable(db.payouts[p])
    modifies db
    ensures var was := old(db.Snapshot());
      if p >= |was.payouts| || was.payouts[p].spaceId != s then r == Err(NotFound) && db.Snapshot() == was
      else if was.payouts[p].status != AwaitingApproval then r == Err(NotAwaitingApproval) && db.Snapshot() == was
      else if user !in signatories && user != was.payouts[p].requestedById then r == Err(NotASignatory) && db.Snapshot() == was
      else r.Ok? && db.Snapshot() == CancelTx(if user in signatories then RejectionTx(was, p, user) else was, p)
  {
    if p >= |db.payouts| || db.payouts[p].spaceId != s { return Err(NotFound); }
    if db.payouts[p].status != AwaitingApproval { return Err(NotAwaitingApproval); }
    var isSignatory := user in signatories;
    if !isSignatory && db.payouts[p].requestedById != user { return Err(NotASignatory); }
    if isSignatory {
      db.approvals := db.approvals[(p, user) := Rejected];
    }
    var cancelled := CancelPayout(db, p);
    if !cancelled { return Err(NotAwaitingApproval); }
    return Ok(());
  }

  // ------------------------------------------------------------------- expiry

  predicate Stale(p: Payout, now: Time) {
    p.status == AwaitingApproval && p.approvalExpiresAt.Some? && p.approvalExpiresAt.value <= now
  }

  function StaleIds(payouts: seq<Payout>, now: Time): (ids: seq<PayoutId>)
    ensures forall i :: 0 <= i < |ids| ==> ids[i] < |payouts| && Stale(payouts[ids[i]], now)
    ensures forall p: PayoutId :: p < |payouts| && Stale(payouts[p], now) ==> p in ids
    ensures forall i, j :: 0 <= i < j < |ids| ==> ids[i] < ids[j]
  {
    if payouts == [] then []
    else
      var n := |payouts| - 1;
      StaleIds(payouts[..n], now) + if Stale(payouts[n], now) then [n] else []
  }

  function CancelAll(db: Db, ids: seq<PayoutId>): (r: Db)
    requires forall i :: 0 <= i < |ids| ==> ids[i] < |db.payouts|
    ensures |r.payouts| == |db.payouts|
  {
    if ids == [] then db else CancelTx(CancelAll(db, ids[..|ids| - 1]), ids[|ids| - 1])
  }

  const EXPIRY_BATCH: nat := 50

  function FirstBatch(ids: seq<PayoutId>): seq<PayoutId> { if |ids| <= EXPIRY_BATCH then ids else ids[..EXPIRY_BATCH] }

  /** Cancels the first fifty stale withdrawals, one transaction each. */
  method ExpireStaleApprovals(db: Database, now: Time)
    requires forall p: PayoutId :: p < |db.payouts| ==> Restorable(db.payouts[p])
    modifies db
    ensures db.Snapshot() == CancelAll(old(db.Snapshot()), FirstBatch(StaleIds(old(db.payouts), now)))
  {
    var stale := FirstBatch(StaleIds(db.payouts, now));
    ghost var was := db.Snapshot();
    for k := 0 to |stale|
      invariant |db.payouts| == |was.payouts|
      invariant forall p: PayoutId :: p < |db.payouts| ==> Restorable(db.payouts[p])
      invariant db.Snapshot() == CancelAll(was, stale[..k])
    {
      assert stale[..k + 1][..k] == stale[..k];
      var _ := CancelPayout(db, stale[k]);
    }
    assert stale[..|stale|] == stale;
  }

  lemma {:induction false} SweepKeepsSound(db: Db, ids: seq<PayoutId>)
    requires Sound(db) && forall i :: 0 <= i < |ids| ==> ids[i] < |db.payouts|
    ensures Sound(CancelAll(db, ids))
  {
    if ids != [] {
      SweepKeepsSound(db, ids[..|ids| - 1]);
      CancelKeepsSound(CancelAll(db, ids[..|ids| - 1]), ids[|ids| - 1], CancelAll(db, ids));
    }
  }

  /** Every withdrawal in the sweep ends cancelled, and no other withdrawal is touched. */
  lemma {:induction false} SweepCancelsExactly(db: Db, ids: seq<PayoutId>, q: PayoutId)
    requires q < |db.payouts|
    requires forall i :: 0 <= i < |ids| ==> ids[i] < |db.payouts| && db.payouts[ids[i]].status == AwaitingApproval
    ensures CancelAll(db, ids).payouts[q].status == if q in ids then Cancelled else db.payouts[q].status
  {
    if ids != [] {
      var front := ids[..|ids| - 1];
      SweepCancelsExactly(db, front, q);
      assert ids == front + [ids[|ids| - 1]];
      assert db.payouts[ids[|ids| - 1]].status == AwaitingApproval;
    }
  }

  lemma ApproveKeepsSound(db: Db, p: PayoutId, user: UserId, signatories: set<UserId>, after: Db)
    requires Sound(db) && p < |db.payouts| && ApproveTx(db, p, user, signatories) == Ok(after)
    ensures Sound(after)
  {
    var signed := db.(approvals := after.approvals);
    SignaturesKeepSound(db, signed);
    if after != signed { ReleaseKeepsSound(signed, p, after); }
  }

  lemma ReleaseKeepsSound(db: Db, p: PayoutId, after: Db)
    requires Sound(db) && p < |db.payouts| && db.payouts[p].status == AwaitingApproval && after == Release(db, p)
    ensures Sound(after)
  {
    assert PayoutOk(db.dues, db.payouts[p]);
    StatusKeepsSound(db, p, WithStatus(db.payouts[p], Pending).(approvalExpiresAt := None));
  }

  lemma SignaturesKeepSound(db: Db, after: Db)
    requires Sound(db) && after == db.(approvals := after.approvals)
    ensures Sound(after)
  {
  }

  predicate HasApproved(approvals: map<(PayoutId, UserId), Decision>, p: PayoutId, u: UserId) {
    (p, u) in approvals && approvals[(p, u)] == Approved
  }

  ghost predicate TwoApproved(approvals: map<(PayoutId, UserId), Decision>, p: PayoutId, signatories: set<UserId>) {
    exists u, v :: u in signatories && v in signatories && u != v && HasApproved(approvals, p, u) && HasApproved(approvals, p, v)
  }

  /** An approval releases the withdrawal exactly when, with it, two distinct signatories of the
      set it read have approved; one that counts its own signer once alone never does. */
  lemma ReleaseNeedsTwo(db: Db, p: PayoutId, user: UserId, signatories: set<UserId>)
    requires p < |db.payouts| && ApproveTx(db, p, user, signatories).Ok?
    ensures var after := ApproveTx(db, p, user, signatories).value;
      && (after.payouts[p].status == Pending <==> |ApprovedBy(after.approvals, p, signatories)| >= REQUIRED_APPROVALS)
      && (after.payouts[p].status == Pending ==> TwoApproved(after.approvals, p, signatories))
  {
    var after := ApproveTx(db, p, user, signatories).value;
    var both := ApprovedBy(after.approvals, p, signatories);
    if after.payouts[p].status == Pending {
      var u :| u in both;
      var rest := both - {u};
      assert |rest| >= 1;
      var v :| v in rest;
      assert HasApproved(after.approvals, p, u) && HasApproved(after.approvals, p, v);
    }
  }
}
