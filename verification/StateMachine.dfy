/** Legal status transitions of the two money objects (src/lib/stateMachine.ts). */
module StateMachine {
  datatype CheckoutStatus = CheckoutPending | Paid | Expired | Underpaid

  datatype PayoutStatus = AwaitingApproval | Pending | Processing | Success | Failed | Reversed | Cancelled

  function CheckoutTransitions(from: CheckoutStatus): set<CheckoutStatus> {
    match from
    case CheckoutPending => {Paid, Expired, Underpaid}
    case Expired => {Paid}
    case Underpaid => {Paid}
    case Paid => {}
  }

  function PayoutTransitions(from: PayoutStatus): set<PayoutStatus> {
    match from
    case AwaitingApproval => {Pending, Cancelled}
    case Pending => {Processing, Failed}
    case Processing => {Success, Failed, Reversed}
    case Success => {Reversed}
    case Failed => {}
    case Reversed => {}
    case Cancelled => {}
  }

  predicate CanTransitionCheckout(from: CheckoutStatus, to: CheckoutStatus) {
    to in CheckoutTransitions(from)
  }

  predicate CanTransitionPayout(from: PayoutStatus, to: PayoutStatus) {
    to in PayoutTransitions(from)
  }

  /** Neither closed nor restored: the payout still holds its space. */
  predicate PayoutActive(s: PayoutStatus) {
    s in {AwaitingApproval, Pending, Processing}
  }

  /** Closed without the money going out: the ledger has been credited back. */
  predicate PayoutRestored(s: PayoutStatus) {
    s in {Failed, Reversed, Cancelled}
  }

  ghost predicate PayoutPath(path: seq<PayoutStatus>) {
    path != [] && forall i :: 0 < i < |path| ==> CanTransitionPayout(path[i - 1], path[i])
  }

  ghost predicate CheckoutPath(path: seq<CheckoutStatus>) {
    path != [] && forall i :: 0 < i < |path| ==> CanTransitionCheckout(path[i - 1], path[i])
  }

  function PayoutRank(s: PayoutStatus): nat {
    match s
    case AwaitingApproval => 0
    case Pending => 1
    case Processing => 2
    case Success => 3
    case Failed => 4
    case Reversed => 4
    case Cancelled => 4
  }

  function CheckoutRank(s: CheckoutStatus): nat {
    match s case CheckoutPending => 0 case Expired => 1 case Underpaid => 1 case Paid => 2
  }

  lemma {:induction false} PayoutRankRises(path: seq<PayoutStatus>, i: nat, j: nat)
    requires PayoutPath(path) && i <= j < |path|
    ensures PayoutRank(path[j]) >= PayoutRank(path[i]) + (j - i)
    decreases j
  {
    if i < j {
      PayoutRankRises(path, i, j - 1);
      assert CanTransitionPayout(path[j - 1], path[j]);
    }
  }

  /** No sequence of legal writes walks a payout backwards: it never revisits a status, stops
      after at most four writes, and once money has been restored nothing follows. */
  lemma PayoutNeverWalksBack(path: seq<PayoutStatus>)
    requires PayoutPath(path)
    ensures forall i, j :: 0 <= i < j < |path| ==> path[i] != path[j]
    ensures |path| <= 5
    ensures forall i :: 0 <= i < |path| && PayoutRestored(path[i]) ==> i == |path| - 1
  {
    forall i, j | 0 <= i < j < |path| ensures PayoutRank(path[i]) < PayoutRank(path[j]) {
      PayoutRankRises(path, i, j);
    }
    PayoutRankRises(path, 0, |path| - 1);
  }

  /** The same for checkouts: at most two writes, and `paid` is final. */
  lemma CheckoutNeverWalksBack(path: seq<CheckoutStatus>)
    requires CheckoutPath(path)
    ensures forall i, j :: 0 <= i < j < |path| ==> path[i] != path[j]
    ensures |path| <= 3
    ensures forall i :: 0 <= i < |path| && path[i].Paid? ==> i == |path| - 1
  {
    forall i, j | 0 <= i < j < |path| ensures CheckoutRank(path[i]) < CheckoutRank(path[j]) {
      CheckoutRankRises(path, i, j);
    }
    CheckoutRankRises(path, 0, |path| - 1);
  }

  lemma {:induction false} CheckoutRankRises(path: seq<CheckoutStatus>, i: nat, j: nat)
    requires CheckoutPath(path) && i <= j < |path|
    ensures CheckoutRank(path[j]) >= CheckoutRank(path[i]) + (j - i)
    decreases j
  {
    if i < j {
      CheckoutRankRises(path, i, j - 1);
      assert CanTransitionCheckout(path[j - 1], path[j]);
    }
  }

  /** Every status a payout can still reach. */
  function PayoutReach(from: PayoutStatus): set<PayoutStatus> {
    match from
    case AwaitingApproval => {AwaitingApproval, Pending, Processing, Success, Failed, Reversed, Cancelled}
    case Pending => {Pending, Processing, Success, Failed, Reversed}
    case Processing => {Processing, Success, Failed, Reversed}
    case Success => {Success, Reversed}
    case Failed => {Failed}
    case Reversed => {Reversed}
    case Cancelled => {Cancelled}
  }

  lemma {:induction false} PathStaysInReach(path: seq<PayoutStatus>)
    requires PayoutPath(path)
    ensures path[|path| - 1] in PayoutReach(path[0])
  {
    if |path| > 1 {
      PathStaysInReach(path[..|path| - 1]);
      assert CanTransitionPayout(path[|path| - 2], path[|path| - 1]);
    }
  }

  /** A path of legal writes from one status to another. */
  function PathTo(from: PayoutStatus, to: PayoutStatus): seq<PayoutStatus>
    requires to in PayoutReach(from)
  {
    if from == to then [from]
    else if CanTransitionPayout(from, to) then [from, to]
    else if from == AwaitingApproval then
      if to == Reversed then [from, Pending, Processing, to] else if to == Success then [from, Pending, Processing, to] else [from, Pending, to]
    else [from, Processing, to]
  }

  /** The reachable statuses are exactly the ends of legal paths. */
  lemma ReachIsExact(from: PayoutStatus, to: PayoutStatus)
    ensures to in PayoutReach(from) <==> exists path :: PayoutPath(path) && path[0] == from && path[|path| - 1] == to
  {
    if to in PayoutReach(from) {
      assert PayoutPath(PathTo(from, to));
    }
    if path :| PayoutPath(path) && path[0] == from && path[|path| - 1] == to {
      PathStaysInReach(path);
    }
  }
}
