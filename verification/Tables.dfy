/** The database tables the money core reads and writes (prisma/schema.prisma). No row another
    one refers to is ever deleted, so a row's id is its position. */
module Tables {
  import opened Wrappers
  import opened StateMachine

  type UserId = nat
  type SpaceId = nat
  type DueId = nat
  type PayoutId = nat
  type DuePaymentId = nat
  type CheckoutId = nat
  type Reference = nat
  type Time = nat

  datatype EntryType = DuePaymentCredit | ManualCredit | PayoutReversal | PayoutDebit | PayoutFee | Refund

  datatype Direction = Credit | Debit

  /** Whose money an entry moves. */
  datatype Tag = Tag(spaceId: SpaceId, dueId: Option<DueId>, duePaymentId: Option<DuePaymentId>, payoutId: Option<PayoutId>)

  datatype Entry = Entry(kind: EntryType, direction: Direction, amountKobo: int, tag: Tag)

  datatype Due = Due(spaceId: SpaceId, amount: nat, assignedRepId: Option<UserId>, createdAt: Time)

  datatype Payout = Payout(
    reference: Reference, spaceId: SpaceId, dueId: Option<DueId>, amount: int, feeKobo: int, netKobo: int,
    status: PayoutStatus, activeSpaceId: Option<SpaceId>, approvalExpiresAt: Option<Time>,
    destinationId: Option<nat>, requestedById: UserId)

  datatype Decision = Approved | Rejected

  datatype DuePayment = DuePayment(
    userId: UserId, dueId: DueId, checkoutId: Option<CheckoutId>, txnId: Option<Reference>,
    amountPaid: int, duevyFee: int, netToSpace: int)

  datatype Item = Item(dueId: DueId, faceKobo: int, feeKobo: int)

  datatype Checkout = Checkout(
    reference: Reference, userId: UserId, spaceId: SpaceId, status: CheckoutStatus,
    faceKobo: int, feeKobo: int, totalKobo: int, items: seq<Item>, dueSetKey: seq<DueId>,
    receivedKobo: Option<int>, overpaidKobo: int, providerChargeId: Option<nat>,
    expiresAt: Time, expiredAt: Option<Time>, underpaidAt: Option<Time>, paidAt: Option<Time>,
    needsReview: bool)

  datatype TxnStatus = TxnPending | TxnCompleted | TxnFailed

  datatype Receipt = Receipt(totalKobo: int)

  /** One consistent state of the tables. */
  datatype Db = Db(
    dues: seq<Due>,
    payouts: seq<Payout>,
    approvals: map<(PayoutId, UserId), Decision>,
    ledger: seq<Entry>,
    duePayments: seq<DuePayment>,
    checkouts: seq<Checkout>,
    txns: map<Reference, TxnStatus>,
    receipts: map<CheckoutId, Receipt>)

  const EMPTY_DB := Db([], [], map[], [], [], [], map[], map[])

  class Database {
    var dues: seq<Due>
    var payouts: seq<Payout>
    var approvals: map<(PayoutId, UserId), Decision>
    var ledger: seq<Entry>
    var duePayments: seq<DuePayment>
    var checkouts: seq<Checkout>
    var txns: map<Reference, TxnStatus>
    var receipts: map<CheckoutId, Receipt>

    constructor ()
      ensures Snapshot() == EMPTY_DB
    {
      dues, payouts, approvals, ledger, duePayments, checkouts, txns, receipts := [], [], map[], [], [], [], map[], map[];
    }

    function Snapshot(): Db
      reads this
    {
      Db(dues, payouts, approvals, ledger, duePayments, checkouts, txns, receipts)
    }
  }
}
