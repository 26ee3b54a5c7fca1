# The money core, modelled and proved

A space (a class, a club) collects dues from its members and withdraws what it collected. This
project models the part of the backend that moves that money and proves what it is meant to
guarantee:

- the append-only ledger and every balance derived from it (`Ledger`, `Books`, `Solvency`,
  `DueAvailability`, `LedgerSummary`);
- withdrawals, their two-of-three signatures, and a payment provider that may time out, refuse,
  succeed, or fail after success (`Withdrawal`, `Approval`, and column by column in `PayoutFacts`);
- checkouts and manual credits (`Checkouts`, `Settlement`, `CheckoutFacts`, `CheckoutOutcomes`,
  `Review`, `OpenCheckouts`);
- webhooks, the event queue, the reconciliation sweeps and idempotency keys (`Events`,
  `WebhookQueue`, `QueueRuns`, `Reconciliation`, `PayoutSweeps`, `Idempotency`);
- runs from the empty system that show where a guarantee stops (`Witnesses`);
- the exact arithmetic under all of it (`Money`, `Decimal`) and the status graphs (`StateMachine`).

## How it is put together

`Tables.Db` is one consistent state of the database. Each database transaction is a function on
it (`RequestTx`, `FailTx`, `FulfilTx`, ...): committed whole or not at all, because the source
runs it under a space, row or student lock. `Tables.Database` is the same state as an object; the
methods of the services run the source's own steps on it, loops included, and each is proved to
leave exactly the state the transaction function describes, error paths included.

`Books.Sound` is the invariant of the books: the ledger holds exactly the entries its payments and
withdrawals call for (as a multiset, so nothing is missing, doubled or unexplained), its unique
keys hold, no space and no due is overdrawn, a space has at most one withdrawal in flight, and a
student pays for a due at most once. `CheckoutFacts.CheckoutsOk` is the invariant of the checkout
tables.

`PayoutFacts`, `CheckoutOutcomes` and the lemmas of `Events` and `Reconciliation` named `...Writes`
are the reference the transactions are held against: they give the whole effect of each operation on
the tables by columns and constants, not by the definitions the transactions are built from (only
what has a reference of its own, such as a due's availability or the dispatch inside an approval,
stands under its name), and say exactly when it is refused, and with what.

`Protocol` puts every transaction, and every move of the provider and the bank, into one
transition system. A provider call is several steps: a dispatcher reads the row and sends off a
call with the reference, destination and net it read, the call reaches the provider, the bank
moves, and a reply or report arrives, late, more than once or never. The provider keeps one record
for each reference, with what it took. `Protocol.After` (by `Runs.Run`) runs any sequence of steps;
a step that is not enabled changes nothing. So a lemma about `After`, or about every
`PayoutRuns.Reachable` state, speaks of every interleaving of requests, signatures, dispatchers,
webhook workers and sweeps; `PayoutSweeps` and `Events` prove that the services' own requests,
reports and sweeps are such runs. `QueueRuns` and `Idempotency` are the same construction for queue
workers and for concurrent HTTP requests with one key.

What the provider is taken to guarantee: a withdrawal's reference is its idempotency key, one
answer is fixed for it and replayed; a non-retryable error is a definite refusal; success is
reported only after the bank paid, and failure only after it bounced or returned the money. Time
is a non-decreasing input.

## Where the code falls short of its own words

- The sweep is described as the backstop for lost webhooks (`src/jobs/reconciliation.ts:9-17`), but
  it never asks about a withdrawal closed as successful. If the bank returns the money and that one
  report is lost, the gross stays debited (`Witnesses.LostReversalStaysLost`);
  `PayoutSweeps.SweepSettles` says exactly which cases a sweep misses.
- The queue's comments call retries always safe; a worker that outlives its five-minute lock can
  turn a `processed` row back into `failed` (`QueueRuns.ProcessedIsNotFinal`).
  `QueueRuns.ClosedUnlessLateFailure` says exactly which write does it.
- `src/middleware/idempotency.ts:12-14` promises one request at a time inside the handler. A
  connection that closes while the handler runs gives the key back
  (`Idempotency.EarlyCloseAdmitsTwo`), and two requests that both find a key expired can both enter
  (`Idempotency.ExpiredKeyAdmitsTwo`). `Idempotency.CrowdedRunsExactly` says exactly which claim
  breaks the promise, and `Idempotency.StepKeepsKey` exactly which steps take the key from its
  owner; without them the promise is proved.
- An account that opens after its checkout's provisional expiry can give a student two open
  checkouts for one due (`Witnesses.LateOpeningBreaksDisjointness`), exactly under the condition of
  `OpenCheckouts.OpeningIsDisjoint`. Paying both still settles the due once.
- Handling one payment event twice is not always without effect: a payment that arrived on another
  charge than the stored one is flagged only when it is seen again
  (`Witnesses.SecondSightRaisesTheFlag`), exactly under the condition of
  `Events.RedeliveryChangesNothing`.
- Sending more is not always receiving more: see `Money.ThresholdDip`.

## Model

| member | source | states |
|---|---|---|
| `PayoutRuns.RestoredMoneyStaysHome` | src/services/withdrawal.service.ts:487-523 | In every reachable state a withdrawal whose balance was given back has money that is not out and, through any further steps, never can be: no call, late reply, duplicate report or bank move takes it, and its ledger entries go on netting to zero. |
| `PayoutRuns.MoneyOutIsHeld` | src/services/withdrawal.service.ts:406-453 | While the provider holds the payout as moving or paid out, or a call that could create it is on its way, the ledger holds exactly minus its gross: a timeout alone never restores a balance. |
| `PayoutRuns.CallsCarryTheTerms` | src/services/withdrawal.service.ts:406-419 | Every call ever sent to the provider carries the reference, destination and net of exactly one withdrawal, as its row has them. |
| `PayoutRuns.AcceptedOnce` | src/services/withdrawal.service.ts:401-419 | The provider takes a withdrawal on only by a call with that row's own terms, and one call serves no other withdrawal; from then on, through any run and any retries, it holds exactly the net for that destination and never takes the withdrawal on again. |
| `PayoutRuns.TakenIsTheNet` | src/services/withdrawal.service.ts:413-419 | In every reachable state, what the provider took under a withdrawal's reference is its net, for its destination. |
| `PayoutRuns.NeverMoreThanCollected` | src/services/withdrawal.service.ts:28-47 | In every reachable state, what the provider holds moving or has paid out for a space, plus the balance the space can still withdraw, is at most what it collected. |
| `PayoutSweeps.SweepSettles` | src/jobs/reconciliation.ts:76-96 | In every reachable state, once the provider has decided and with any reply its record allows, a retry and a refresh bring the row into step with the bank if and only if the case is none of: the money was returned after the row was (or by this reply is) closed as successful, or the retry got no reply; and they bring its entries to minus the gross if the bank paid and to zero otherwise, if and only if the bank paid or the case is none of those. |
| `PayoutSweeps.SweepIsRowByRow` | src/jobs/reconciliation.ts:76-96 | What a whole sweep does to a withdrawal past its wait is a retry if it is in the first batch, then a refresh if it is in the second, whatever else the batches hold. |
| `PayoutSweeps.SweptIsByRow` | src/jobs/reconciliation.ts:76-96 | A retry and a refresh of one withdrawal depend on its row and the two replies only. |
| `PayoutSweeps.SweepIgnoresSuccess` | src/services/withdrawal.service.ts:406-408 | No sweep changes a withdrawal that is closed as successful, whatever its batches and replies. |
| `Witnesses.LostReversalStaysLost` | src/jobs/reconciliation.ts:76-96 | A run from the empty system that ends with a successful withdrawal whose money the bank returned: its gross stays debited and no sweep asks about it. |
| `Witnesses.ReversalCanBeLost` | src/services/withdrawal.service.ts:583-589 | The same can happen to every withdrawal that may be sent and has not been. |
| `PayoutSweeps.PayoutSweepIsARun` | src/jobs/reconciliation.ts:76-108 | A whole payout sweep, with replies the provider's records allow, is a run of the system's own steps and leads from a reachable state to one, so every result about runs covers it. |
| `PayoutSweeps.DispatchIsARun` | src/services/withdrawal.service.ts:406-453 | A whole dispatch, with any reply the provider's record allows, leaves the tables exactly as a run of the system's own steps does. |
| `PayoutSweeps.RefreshIsARun` | src/services/withdrawal.service.ts:583-589 | So does a refresh of a processing withdrawal. |
| `PayoutSweeps.RequestIsARun` | src/services/withdrawal.service.ts:240-348 | So does a request with the dispatch that may follow it, |
| `PayoutSweeps.ApprovalIsARun` | src/services/withdrawalApproval.service.ts:99-146 | and an approval with the dispatch it may trigger, |
| `PayoutSweeps.RejectionIsARun` | src/services/withdrawalApproval.service.ts:156-184 | and a rejection. |
| `PayoutRuns.ReachableAgrees` | src/services/withdrawal.service.ts:406-523 | Every reachable row agrees with what the provider holds: waiting and cancelled rows were never sent, processing rows are taken, successful rows were paid out, failed and reversed rows cannot be out; and entries net to minus the gross or to nothing. |
| `PayoutRuns.StepKeepsInv` | src/services/withdrawal.service.ts:282-338 | Every step of the whole system (requests, signatures, dispatches, provider moves, reports, checkouts, manual credits, expiry) keeps the books sound, the checkout tables consistent and provider and rows in agreement. |
| `PayoutRuns.RunKeepsInv` | src/jobs/reconciliation.ts:1-13 | The same over every finite run, under any interleaving. |
| `PayoutRuns.ReachableKeepsInv` | src/jobs/reconciliation.ts:1-13 | Hence every reachable state has sound books, consistent checkouts and rows that agree with the provider. |
| `PayoutRuns.RunFrame` | src/lib/stateMachine.ts:43-51 | Over any run a withdrawal keeps its space, due, amounts and destination, and its status only moves to one its graph allows to be reached. |
| `PayoutRuns.EveryRunIsSolvent` | src/services/ledger.service.ts:6-21 | In every reachable state a space's balance is what it collected less what open and successful withdrawals hold, is not negative, equals the sum of its dues' availabilities, and at most one withdrawal holds the space. |
| `PayoutRuns.HoldsWhileOpen` | src/lib/stateMachine.ts:73-74 | In every reachable state a withdrawal holds its space if and only if it waits for signatures, is pending or is processing. |
| `PayoutRuns.MoveReturnsGross` | src/services/withdrawal.service.ts:491-564 | A withdrawal's own step moves money only when it restores the withdrawal (failed, reversed or cancelled), and then gives exactly its gross back to its own space and its own due and to nothing else. |
| `PayoutRuns.LeavingApproval` | src/services/withdrawalApproval.service.ts:99-145 | The only steps that end the wait of a multisig withdrawal are an approval that counted two distinct signatures of the set it read (it becomes pending) and a cancellation. |
| `PayoutRuns.ReleaseTakesTwo` | src/services/withdrawalApproval.service.ts:95-134 | Over any run, a withdrawal that was waiting and is now beyond waiting and not cancelled went through such an approval step, whatever rejections and expiries raced it. |
| `PayoutRuns.SendingTakesTwo` | src/services/withdrawalApproval.service.ts:95-134 | Hence so did every withdrawal that once waited and has been sent to the provider. |
| `PayoutRuns.MultisigTakesTwo` | src/services/withdrawal.service.ts:276-316 | So did every withdrawal requested in a space that takes signatures and sent to the provider in whatever followed, and it did after its request. |
| `PayoutRuns.CancelledIsNeverAsked` | src/services/withdrawal.service.ts:541-564 | A cancelled withdrawal was never sent to the provider and never will be. |
| `PayoutRuns.StepFrame` | src/services/withdrawal.service.ts:396-399 | One step of the system changes at most the status fields of the withdrawal it is about, along the graph, and nothing of any other withdrawal or of what the provider holds for it. |
| `CheckoutRuns.PaidIffCovered` | src/services/checkout.service.ts:376-405 | For any sequence of reports and other steps, an unpaid checkout ends up paid if and only if some report covered its total; its basket and totals never change. |
| `CheckoutRuns.FirstCoveringReportDecides` | src/services/checkout.service.ts:376-495 | Exactly once: before the first covering report there is no payment, credit or receipt of the checkout; that report writes one payment and one face-value credit for each line nobody had paid, and the receipt for what arrived; nothing afterwards adds to or alters them. |
| `CheckoutRuns.PaidIsFrozen` | src/services/checkout.service.ts:376-392 | From any consistent state on, a paid checkout stays paid and its payments and receipt are final. |
| `CheckoutRuns.OncePerStudentAndDue` | prisma/schema.prisma:749 | In every reachable state a student has at most one payment for a due, whatever checkouts and manual credits overlapped, and it has exactly one ledger entry, its face-value credit in the due's own space. |
| `CheckoutRuns.LedgerOnlyGrows` | src/services/ledger.service.ts:6-9 | No run rewrites or removes a ledger entry: the earlier ledger is a prefix of the later one. |
| `CheckoutRuns.NoUnexplainedMoney` | src/services/checkout.service.ts:406-478 | In every run without an admin resolve, no review flag is ever lowered, and every unflagged checkout is plain: what arrived equals its total, it was paid while open, and none of its dues was settled elsewhere. |
| `CheckoutRuns.OpenCheckoutsStayDisjoint` | src/services/checkout.service.ts:178-194 | In every run in which accounts open before their provisional expiry, a student never has two open checkouts for one due. |
| `CheckoutRuns.NeverTwoOpenForOneDue` | src/services/checkout.service.ts:183-194 | Row by row: in such runs two pending, unexpired checkouts of one student have no due in common. |
| `CheckoutRuns.ClosedUntilPaid` | src/lib/stateMachine.ts:26-37 | A checkout closed as underpaid or expired stays so over any run until it is paid. |
| `CheckoutRuns.CheckoutStep` | src/lib/stateMachine.ts:26-37 | One step keeps a checkout's basket and reference, moves its status along its graph, and pays it exactly when it is a covering report for it. |
| `Events.ProcessEvent` | src/services/webhookProcessor.service.ts:60-105 | Handling an event commits exactly the outcome of the checkout or payout it names; an unknown checkout or a payout event without a reference fails and changes nothing. |
| `Events.CheckoutEventWrites` | src/services/webhookProcessor.service.ts:63-87 | What each kind of event does to the checkout it names, and that it does nothing else: expired and failed close a pending one and its transaction, underpaid notes the amount, and succeeded pays it if and only if the amount covers the total, is noted as short if not, and at most flags a paid one. |
| `Events.FindsTheNamed` | src/services/checkout.service.ts:346-356 | An event finds a checkout if and only if it carries its reference or, when no checkout has the reference given, the provider id stored for it. |
| `Events.UnnamedEventFails` | src/services/checkout.service.ts:339-356 | An event about a checkout fails, changing nothing, if and only if it names none. |
| `Events.PayoutSuccessWrites` | src/services/webhookProcessor.service.ts:88-94 | A success report about a payout closes a processing one as successful and releases its space, and changes nothing otherwise. |
| `Events.PayoutFailureWrites` | src/services/webhookProcessor.service.ts:95-99 | A failure report fails a pending or processing one, reverses a successful one and gives the gross back, and changes nothing otherwise. |
| `Events.OtherEventsWriteNothing` | src/services/webhookProcessor.service.ts:88-104 | A payout report with an unknown reference changes nothing, one without a reference fails, and no other event touches a table. |
| `Events.OtherWritesAreRuns` | src/services/checkout.service.ts:291-303 | Creating a checkout, opening its account, resolving its review and crediting by hand are single steps of the system that write just that. |
| `Events.EventIsARun` | src/services/webhookProcessor.service.ts:60-87 | Handling a checkout event is a run of the system's own steps, so every result about runs covers webhooks. |
| `Events.PayoutEventIsARun` | src/services/webhookProcessor.service.ts:88-101 | Handling a payout report about a known reference, true to what the provider holds, is a run of the system's own steps too. |
| `Events.RedeliveryChangesNothing` | src/services/checkout.service.ts:386-402 | Handling a checkout event a second time changes nothing, if and only if it is not a payment on a charge other than the stored one with nothing else to flag: that one is flagged for review on the second sight. |
| `Witnesses.SecondSightRaisesTheFlag` | src/services/checkout.service.ts:386-402 | A run from the empty system that reaches that exception: the first report passes unflagged and the same report again raises the flag. |
| `Events.PayoutReportChangesNothing` | src/services/withdrawal.service.ts:456-523 | Handling a payout report a second time changes nothing. |
| `Events.ReferenceFindsItsCheckout` | src/services/checkout.service.ts:346-356 | An event that carries one of our references finds the checkout with that reference, whatever provider id it also carries. |
| `Reconciliation.ReconcileCheckout` | src/jobs/reconciliation.ts:50-74 | Applies what the provider says of one pending checkout, and only that. |
| `Reconciliation.SweepWrites` | src/jobs/reconciliation.ts:54-74 | All a sweep writes, by what it saw and what the provider says: the amount it names is paid in or noted as too little, a lapsed account or one five minutes past its expiry closes the checkout, and anything else writes nothing. |
| `Reconciliation.TooLittleIsOnRecord` | src/jobs/reconciliation.ts:72 | Money the provider reports as too little closes a pending checkout as underpaid, on record (zero when unnamed) and flagged. |
| `Reconciliation.SilentExactly` | src/jobs/reconciliation.ts:54-74 | A sweep leaves every table as it was if and only if it is one of the silent cases: nothing pending when it looked, too early or not the caller's to expire, no amount named, or already noted or closed. |
| `Reconciliation.SweepNeverGuesses` | src/jobs/reconciliation.ts:64-72 | A sweep pays a checkout if and only if it was seen pending with an opened account and the provider reports it paid with an explicit amount that covers the total. |
| `Reconciliation.SweepExpiresOnlyTheLapsed` | src/jobs/reconciliation.ts:54-74 | A sweep closes a pending checkout unpaid if and only if the provider says it lapsed, or it is five minutes past its expiry with no verdict and the caller may expire it. |
| `Reconciliation.SweepIsARun` | src/jobs/reconciliation.ts:43-74 | A checkout sweep is a run of the system's own steps. |
| `Reconciliation.ReconcilePayouts` | src/jobs/reconciliation.ts:76-108 | A payout sweep dispatches its undispatched batch, then refreshes its processing batch, then cancels the stale approvals, each in order. |
| `Reconciliation.PayoutSweepKeepsSound` | src/jobs/reconciliation.ts:76-108 | A whole payout sweep leaves the books sound whatever the provider answers. |
| `Reconciliation.RefreshWrites` | src/services/withdrawal.service.ts:583-589 | What a refresh writes: success or failure of a processing withdrawal as the provider has it, and otherwise nothing. |
| `PayoutSweeps.SweepCancelsTheOverdue` | src/jobs/reconciliation.ts:106-107 | Of the withdrawals that wait, a whole payout sweep cancels overdue ones only, all of them up to fifty, and leaves the others waiting. |
| `Reconciliation.SilenceRestoresNothing` | src/jobs/reconciliation.ts:76-108 | A sweep that learns nothing from the provider does what its expiry of stale approvals does and nothing else; with none stale it changes no table. |
| `Withdrawal.CreateWithdrawal` | src/services/withdrawal.service.ts:240-338 | A request is refused with the first error that applies and no effect, or creates exactly one withdrawal and its debits. |
| `Withdrawal.Examine` | src/services/withdrawal.service.ts:240-302 | A request is refused with the first test it fails, in the source's order, or gets its breakdown. |
| `PayoutFacts.RefusedByFirstFailure` | src/services/withdrawal.service.ts:240-302 | A request is refused with the answer of the first of seventeen tests on amount, discount, standing, due, gates, space and means that it fails, |
| `PayoutFacts.PermittedExactly` | src/services/withdrawal.service.ts:240-302 | and permitted if and only if it passes them all. |
| `PayoutFacts.RequestAddsOneRow` | src/services/withdrawal.service.ts:305-327 | A permitted request adds exactly one row and touches no other: it waits for signatures for a day if and only if the space takes them and is pending otherwise, holds its space, keeps the destination, and its fee is 100 or 200 naira less the discount rounded half-up. |
| `PayoutFacts.RequestDebits` | src/services/withdrawal.service.ts:368-394 | And it appends exactly its net and, unless it is zero, its fee as debits. |
| `PayoutFacts.WholeSpaceSparesCoReps` | src/services/ledger.service.ts:92-97 | A withdrawal of the lead's from the whole space leaves what every co-rep's due can pay out unchanged if and only if it is within what the dues that are nobody's or the lead's can pay out. |
| `Withdrawal.CheckFunds` | src/services/withdrawal.service.ts:286-343 | The locked checks refuse a second in-flight withdrawal, more than the balance, more than the due has available, or a reference already used. |
| `Withdrawal.NewPayoutOk` | src/services/withdrawal.service.ts:282-327 | A permitted request splits into a positive net and a fee, fits the space balance and the due, and finds nothing in flight in its space. |
| `Withdrawal.RequestKeepsSound` | src/services/withdrawal.service.ts:282-338 | A permitted request keeps the books sound: no space or due is overdrawn and no unique key is broken. |
| `Withdrawal.RequestTouchesOneDue` | src/services/withdrawal.service.ts:296-302 | A withdrawal from one due lowers that due's availability by exactly its gross and leaves every other due's unchanged. |
| `Withdrawal.RequestWithdrawal` | src/services/withdrawal.service.ts:240-348 | A request without signatures is dispatched at once; one with signatures is left waiting. |
| `Withdrawal.DispatchPayout` | src/services/withdrawal.service.ts:406-453 | Dispatch sends a pending row only, fails one without a destination, and records acceptance, refusal or nothing by the reply. |
| `PayoutFacts.DispatchWrites` | src/services/withdrawal.service.ts:406-453 | All a dispatch writes, by the reply: nothing on a row that is not pending or on a lost reply; failed with the gross given back on a missing destination, a refusal or a reported failure; successful or processing otherwise. |
| `PayoutFacts.OutcomesWrite` | src/services/withdrawal.service.ts:456-564 | What acceptance, success, failure and cancellation write: nothing unless the row is where the outcome finds it, and then its new status, its hold on the space, and the gross given back where the money did not go out. |
| `Withdrawal.DispatchRestoresOnlyOnRefusal` | src/services/withdrawal.service.ts:436-452 | A dispatch gives a balance back if and only if the row was pending and had no destination, was refused, or was reported failed; a lost reply changes nothing. |
| `Withdrawal.CompletePayout` | src/services/withdrawal.service.ts:456-482 | A success report closes a processing withdrawal and changes nothing otherwise, an unknown reference included. |
| `Withdrawal.FailPayout` | src/services/withdrawal.service.ts:491-523 | A failure closes a pending, processing or successful withdrawal (a successful one as reversed) and restores its gross, and changes nothing otherwise. |
| `Withdrawal.FailPayoutByReference` | src/services/withdrawal.service.ts:485-489 | The same by reference; an unknown one changes nothing. |
| `Withdrawal.CancelPayout` | src/services/withdrawal.service.ts:547-568 | A cancellation closes a waiting withdrawal and restores its gross, and changes nothing otherwise. |
| `Withdrawal.RefreshPayout` | src/services/withdrawal.service.ts:583-589 | Applies the provider's own record to a processing withdrawal only. |
| `Withdrawal.FailKeepsSound` | src/services/withdrawal.service.ts:491-511 | Failing or reversing keeps the books sound. |
| `Withdrawal.CancelKeepsSound` | src/services/withdrawal.service.ts:547-560 | Cancelling keeps the books sound. |
| `Withdrawal.StatusAfterMeaning` | src/lib/stateMachine.ts:43-51 | After any sequence of reports on a processing withdrawal: it is restored iff a failure was among them, successful iff only successes were, and still processing iff neither was. |
| `Withdrawal.ReportsFold` | src/services/withdrawal.service.ts:456-511 | From processing, any finite sequence of reports ends in that status, with one reversal entry for the gross exactly if a failure was among them and no other entry. |
| `Withdrawal.ReportsCommuteOnTheLedger` | src/services/withdrawal.service.ts:456-511 | Two sequences of reports that agree on whether any is a failure leave the same ledger, whatever their order, repetitions and losses. |
| `Approval.LoadForSigning` | src/services/withdrawalApproval.service.ts:32-45 | A user may sign only a waiting, unexpired withdrawal of that space, as a signatory who has not signed; an expired one is cancelled on the spot. |
| `PayoutFacts.MaySignExactly` | src/services/withdrawalApproval.service.ts:32-45 | A user may sign if and only if the withdrawal is of that space, waits, has no expiry or one still to come, and the user is a signatory without a decision; each refusal is given exactly when its own test is the first to fail. |
| `Approval.CastApproval` | src/services/withdrawalApproval.service.ts:110-134 | The locked part of an approval: one decision for each signatory; the withdrawal is released when two of the signatories read beforehand have approved. |
| `Approval.ApprovePayout` | src/services/withdrawalApproval.service.ts:99-146 | A whole approval request: refusals have no effect but the expiry's, and the releasing signature dispatches. |
| `PayoutFacts.SignatureWrites` | src/services/withdrawalApproval.service.ts:110-134 | A signature is recorded, and releases the withdrawal if and only if another signatory of the set it read has approved. |
| `PayoutFacts.ApprovalWrites` | src/services/withdrawalApproval.service.ts:32-146 | All an approval writes: in time it records the signature of whoever may sign and has the code, and sends off what that releases; once the wait is over it cancels the withdrawal, whoever asks, gives its gross back and releases nothing. |
| `Approval.RejectPayout` | src/services/withdrawalApproval.service.ts:156-184 | A signatory's rejection is recorded and cancels; a requester's cancels without a record; anyone else is refused without effect. |
| `PayoutFacts.RejectionWrites` | src/services/withdrawalApproval.service.ts:168-180 | A signatory's rejection leaves a refusal on record, cancels the withdrawal and gives its gross back, and changes nothing else. |
| `Approval.ReleaseNeedsTwo` | src/services/withdrawalApproval.service.ts:119-125 | An approval releases the withdrawal if and only if two or more approvals from the set it read are in, and then two distinct members of it approved. |
| `Approval.ExpireStaleApprovals` | src/services/withdrawalApproval.service.ts:229-238 | Cancels the stale waiting withdrawals it found, fifty at most. |
| `PayoutFacts.ExpiryCancelsTheOverdue` | src/services/withdrawalApproval.service.ts:229-238 | The expiry cancels withdrawals whose wait is over only, all of them if there are at most fifty and fifty otherwise, and changes no other status. |
| `Approval.SweepCancelsExactly` | src/services/withdrawalApproval.service.ts:229-238 | Every withdrawal of the batch ends cancelled and no other status changes. |
| `Approval.SweepKeepsSound` | src/services/withdrawalApproval.service.ts:229-238 | The expiry sweep keeps the books sound. |
| `Approval.ApproveKeepsSound` | src/services/withdrawalApproval.service.ts:110-134 | Signing and releasing keep the books sound. |
| `Ledger.AppendLedgerEntry` | src/services/ledger.service.ts:51-73 | Refuses amounts that are not positive safe integers and entries in the wrong direction; otherwise inserts unless a unique key already holds, and says which. |
| `Ledger.PostIsIdempotent` | src/services/ledger.service.ts:45-50 | A write never breaks the unique keys, and a keyed write repeated changes nothing. |
| `Ledger.NetPermutes` | src/services/ledger.service.ts:80-86 | Every derived total depends only on which entries there are, not on their order. |
| `Books.EntryExplained` | src/services/ledger.service.ts:6-21 | In booked tables every ledger entry belongs to one existing payment or withdrawal and is exactly what that row calls for. |
| `Books.AddPaymentKeepsSound` | src/services/checkout.service.ts:430-463 | A new payment with its credit goes through the ledger's checks, is really appended, and keeps the books sound. |
| `Books.DebitedExactly` | src/services/withdrawal.service.ts:368-394 | A new withdrawal's debits pass the ledger's checks and are exactly its net and, unless it is zero, its fee. |
| `Books.DebitTakesGross` | src/services/withdrawal.service.ts:368-394 | A new withdrawal takes exactly its gross from every selection its space and due fall under and nothing from any other. |
| `Books.AddPayoutKeepsSound` | src/services/withdrawal.service.ts:282-338 | A withdrawal within its space's and due's means keeps the books sound. |
| `Books.ReversalIsNew` | src/services/withdrawal.service.ts:526-540 | The reversal of a withdrawal not yet restored passes the ledger's checks and is really appended. |
| `Books.RestoreKeepsSound` | src/services/withdrawal.service.ts:497-511 | Closing a withdrawal and crediting its gross keeps the books sound. |
| `Books.StatusKeepsSound` | src/services/withdrawal.service.ts:420-432 | A status write that restores nothing leaves the books sound. |
| `Books.DuesKeepSound` | src/services/ledger.service.ts:100-110 | Adding dues, or editing one without moving it to another space, keeps the books sound. |
| `Solvency.NetIsCollectedLessHeld` | src/services/ledger.service.ts:6-21 | Over any selection of entries by space, due, payment or withdrawal, the ledger nets to the face value collected less the gross of withdrawals not restored. |
| `Solvency.SpaceIsSolvent` | src/services/ledger.service.ts:80-86 | A space's balance is collected less held and never negative. |
| `Solvency.DueIsSolvent` | src/services/ledger.service.ts:88-99 | A due's own net is collected less held for it and never negative. |
| `Solvency.DuelessIsOutflow` | src/services/ledger.service.ts:92-97 | The entries that name no due come to minus what whole-space withdrawals hold, so never a surplus. |
| `Solvency.PayoutNetsToGrossOrNothing` | src/services/withdrawal.service.ts:42-44 | A withdrawal's own entries net to minus its gross until it is restored and then to zero. |
| `Solvency.ReversalIffRestored` | src/services/ledger.service.ts:150-156 | A withdrawal has a reversal entry if and only if it failed, was reversed or was cancelled, and never two. |
| `Solvency.RestoreReturnsGross` | src/services/withdrawal.service.ts:526-540 | A restoration adds exactly the gross to every selection the withdrawal falls under and nothing to any other. |
| `Solvency.AvailabilitySumsToBalance` | src/services/ledger.service.ts:88-99 | In sound books what the dues can pay out adds up to exactly the space balance. |
| `Solvency.OneCreditPerPayment` | prisma/schema.prisma:1079 | Each payment has one ledger entry, its credit, and no other. |
| `DueAvailability.SpendDown` | src/services/ledger.service.ts:112-128 | The greedy pass gives each due in the order its closed-form share, one for each due and no other. |
| `DueAvailability.AddUpDeficit` | src/services/ledger.service.ts:112-119 | What must be covered is the due-less outflow plus what every negative due lacks. |
| `DueAvailability.GetDueAvailability` | src/services/ledger.service.ts:100-129 | Returns exactly the space's dues, each with its availability. |
| `DueAvailability.OrderListsTheDues` | src/services/ledger.service.ts:114-117 | The order lists every due of the space once and no other. |
| `DueAvailability.OrderIsByPriority` | src/services/ledger.service.ts:113-117 | Dues assigned to nobody or to the lead come before dues assigned to anyone else; within each group older ones come first, then smaller ids. |
| `DueAvailability.ShareBounds` | src/services/ledger.service.ts:121-127 | A share is between zero and what the due holds, and short of it only if every due before it is down to nothing. |
| `DueAvailability.AvailableBounds` | src/services/ledger.service.ts:121-127 | A due's availability is never negative and never more than its own net. |
| `DueAvailability.AvailabilityPartitionsBalance` | src/services/ledger.service.ts:88-99 | For any ledger whose due ids are the space's dues, total availability is max(0, balance less any due-less surplus). |
| `DueAvailability.TotalIsTheSum` | src/services/ledger.service.ts:121-128 | Total availability is the sum of the availabilities of the space's dues. |
| `DueAvailability.CoRepsAreProtected` | src/services/ledger.service.ts:94-97 | A due assigned to a co-rep gives up money only when every due assigned to nobody or to the lead is at zero, and within a group only when every older one is. |
| `DueAvailability.LeadOutflowSparesCoReps` | src/services/ledger.service.ts:92-97 | For any ledger, an outflow that names no due leaves what every co-rep's due can pay out unchanged if and only if it is within what the lead's and nobody's dues can pay out plus any due-less surplus. |
| `DueAvailability.OutflowTouchesOneDue` | src/services/ledger.service.ts:119-128 | Taking an available amount out of one due lowers that due by exactly it and no other due at all, negative dues and surpluses included. |
| `LedgerSummary.BalanceByType` | src/services/ledger.service.ts:158-161 | Adding up by entry type gives the same balance as adding up by direction. |
| `LedgerSummary.WrongDirectionSplitsTheBalances` | src/services/ledger.service.ts:55-58 | One entry in the wrong direction makes the two balances differ, so the write check is what keeps them together. |
| `LedgerSummary.SummaryConserves` | src/services/ledger.service.ts:143-167 | The summary's balance is the derived balance; collected is balance plus withdrawn plus fees; withdrawn plus fees less what is in flight is the gross of the successful withdrawals. |
| `LedgerSummary.SummaryFigures` | src/services/ledger.service.ts:131-167 | Each figure is what its name says: collected is the face value of the space's payments, withdrawn and fees are the net and fees of its withdrawals that were not restored. |
| `LedgerSummary.InFlightIsTheHolder` | src/services/ledger.service.ts:144-147 | What is in flight is the gross of the one withdrawal that holds the space, |
| `LedgerSummary.NothingInFlight` | src/services/ledger.service.ts:144-147 | and zero when none does. |
| `Checkouts.CreateCheckout` | src/services/checkout.service.ts:120-242 | A checkout request is refused without effect, handed the open checkout for the same dues, or creates one with a pending transaction. |
| `CheckoutOutcomes.SelectionRefused` | src/services/checkout.service.ts:125-174 | A selection of dues is refused with the answer of the first of ten tests on the selection, its dues, the space and the payer that it fails, |
| `CheckoutOutcomes.SelectionPassesExactly` | src/services/checkout.service.ts:125-174 | and goes on to the open checkouts if and only if it fails none. |
| `CheckoutOutcomes.NewCheckoutWrites` | src/services/checkout.service.ts:196-242 | A new checkout is one more row and one pending transaction: each requested due once, in order, at its face, one fee of two percent and twenty naira on them all shared by largest remainder, and the provisional expiry. |
| `OpenCheckouts.NothingInTheWay` | src/services/checkout.service.ts:183-201 | With no open checkout in the way an eligible request makes a new one, if and only if the amount is in range and the reference drawn is free. |
| `Checkouts.PriceBasket` | src/services/checkout.service.ts:196-222 | The fee is charged once on the whole basket and its shares are spread over the lines. |
| `Checkouts.FulfilCheckout` | src/services/checkout.service.ts:376-517 | A report fulfils an unpaid checkout it covers, is short if it does not, and on a paid one at most raises the review flag for another charge. |
| `CheckoutOutcomes.CoveringReportWrites` | src/services/checkout.service.ts:404-495 | All a covering report writes: one payment and one credit at face for each line the student had not paid and for no other, the transaction on the first; the row with what arrived, the excess, and a flag if and only if it was flagged, overpaid, closed before, or a due was settled elsewhere; the transaction completed; the receipt. |
| `CheckoutOutcomes.LinesFollowTheBasket` | src/services/checkout.service.ts:423-464 | The payments follow the order of the basket. |
| `CheckoutOutcomes.SeenPaidWrites` | src/services/checkout.service.ts:386-400 | A report on a paid checkout writes nothing, or a flag if its charge is known to be another one. |
| `CheckoutOutcomes.ShortReportWrites` | src/services/checkout.service.ts:403-405 | A report that falls short pays nothing and is noted as a short payment. |
| `Checkouts.SettleBasket` | src/services/checkout.service.ts:412-464 | The settlement loop writes the unpaid lines and their credits in order, links the transaction to the first, and flags lines settled elsewhere. |
| `Checkouts.MarkUnderpaid` | src/services/checkout.service.ts:520-549 | A short payment closes a pending checkout as underpaid, is recorded and flagged on any other unpaid one unless it is a replay, and never touches a paid one. |
| `CheckoutOutcomes.ShortPaymentWrites` | src/services/checkout.service.ts:520-549 | All a short payment writes: a pending row becomes underpaid at that moment, with the amount and a flag; an expired row, or an underpaid one with another amount, keeps its status and takes the amount and the flag; a paid row, and every other row and table, stays as it is. |
| `CheckoutOutcomes.ClosedIsNotHandedOut` | src/services/checkout.service.ts:183-194 | A checkout closed short or as expired is never handed out again and stands in no new request's way. |
| `Checkouts.ExpireCheckout` | src/services/checkout.service.ts:572-585 | Expiry closes a pending checkout and its pending transaction and changes nothing otherwise. |
| `CheckoutOutcomes.ExpiryWrites` | src/services/checkout.service.ts:572-585 | All an expiry writes: a pending checkout is closed with the moment and its transaction failed; nothing otherwise. |
| `Checkouts.ApplySuccess` | src/services/checkout.service.ts:498-501 | A success report that falls short is recorded as an underpayment in a second transaction. |
| `Checkouts.ManuallyCredit` | src/routes/admin.ts:1252-1371 | A manual credit is refused without effect, or records one transaction, payment and credit at face value. |
| `CheckoutOutcomes.CreditRefused` | src/routes/admin.ts:1257-1291 | A manual credit is refused with the answer of the first test it fails, |
| `CheckoutOutcomes.CreditWrites` | src/routes/admin.ts:1293-1338 | and otherwise writes one completed transaction, one payment and one credit of the due's face in its space, with the fee a checkout of that due would charge. |
| `Checkouts.OpenOverlaps` | src/services/checkout.service.ts:183-186 | Exactly the student's pending, unexpired checkouts that share a due with the request. |
| `Settlement.DedupeCorrect` | src/services/checkout.service.ts:120-135 | The basket holds each requested due once and no other. |
| `Settlement.DedupeKeepsOrder` | src/services/checkout.service.ts:125 | Each due keeps the place of its first occurrence. |
| `Settlement.KeyIffSameDues` | src/services/checkout.service.ts:176 | Two baskets have the same key if and only if they hold the same dues, in whatever order. |
| `Settlement.NewBasketOk` | src/services/checkout.service.ts:196-222 | The lines of a new checkout add up: faces to the face, non-negative fee shares to the fee, both to the total. |
| `Settlement.SettleWritesUnpaidLines` | src/services/checkout.service.ts:412-464 | The settlement loop in closed form: exactly one payment and one credit for each line nobody had paid, in order, and nothing else. |
| `Settlement.SettleKeepsSound` | src/services/checkout.service.ts:430-463 | Settling keeps the books sound. |
| `Settlement.SettleCoversBasket` | src/services/checkout.service.ts:430-447 | Afterwards every line of the basket is paid for the student. |
| `Settlement.PaymentCreditsFaceValue` | src/services/checkout.service.ts:448-463 | A payment raises its space's balance by the full face of the lines it settles, whatever the fee, and no other space's. |
| `Settlement.PaymentsAddUpToTotal` | src/services/checkout.service.ts:430-447 | When none of the dues was paid before, the payments recorded add up to exactly the total the checkout asked for. |
| `Settlement.NothingPaidBefore` | src/services/checkout.service.ts:423-434 | When none of the dues was paid before, every line is settled. |
| `CheckoutFacts.FulfilInFull` | src/services/checkout.service.ts:376-495 | The whole effect of a covering report on the tables, in closed form. |
| `CheckoutFacts.FulfilKeepsCheckouts` | src/services/checkout.service.ts:376-495 | Fulfilment keeps every checkout consistent: paid iff it has a receipt, its transaction in step with its status, every due of a paid basket paid, every payment a line of its own paid checkout, transaction links unique. |
| `CheckoutFacts.FulfilKeepsBooks` | src/services/checkout.service.ts:376-495 | Fulfilment keeps the books sound. |
| `CheckoutFacts.NotesKeepCheckouts` | src/services/checkout.service.ts:291-303 | Short payments, expiry, account opening and review resolution keep every checkout consistent. |
| `CheckoutFacts.CreateKeepsCheckouts` | src/services/checkout.service.ts:178-242 | Creation keeps every checkout consistent. |
| `CheckoutFacts.CreditKeepsCheckouts` | src/routes/admin.ts:1299-1342 | A manual credit keeps every checkout consistent. |
| `Review.PaymentFlagsTheUnexplained` | src/services/checkout.service.ts:406-478 | A checkout comes out of its payment flagged if and only if it was flagged before, or the amount was not exact, or it was not open, or a due was settled elsewhere. |
| `Review.ShortMoneyIsOnRecord` | src/services/checkout.service.ts:520-549 | A short payment on an unpaid checkout is always recorded, and flagged unless it repeats one an admin has resolved. |
| `Review.LaterPaymentsAreElsewhere` | src/services/checkout.service.ts:423-434 | Once a checkout is paid, no later payment can be for one of its dues. |
| `Review.FulfilKeepsReview` | src/services/checkout.service.ts:376-478 | Fulfilment lowers no flag and leaves nothing unexplained unflagged, on any checkout. |
| `Review.NotesKeepReview` | src/services/checkout.service.ts:520-585 | Neither do short payments, expiry and account opening. |
| `OpenCheckouts.CreateKeepsDisjoint` | src/services/checkout.service.ts:178-194 | The locked section keeps a student's open checkouts apart. |
| `OpenCheckouts.OpeningIsDisjoint` | src/services/checkout.service.ts:291-303 | Storing the provider's own expiry keeps them apart if and only if it does not revive a lapsed pending checkout while another open one asks for one of its dues. |
| `Witnesses.LateOpeningBreaksDisjointness` | src/services/checkout.service.ts:291-303 | A run from the empty system whose last step, a late opening, gives a student two open checkouts for one due: they are apart before it and not after it. |
| `OpenCheckouts.RepeatReturnsTheOpenCheckout` | src/services/checkout.service.ts:183-188 | An eligible request is handed a given checkout if and only if it is the student's open checkout for exactly the same set of dues, in any order. |
| `OpenCheckouts.OverlapRefusedExactly` | src/services/checkout.service.ts:189-194 | An eligible request is refused as overlapping if and only if an open checkout of the student has some of its dues and none has exactly them. |
| `StateMachine.PayoutNeverWalksBack` | src/lib/stateMachine.ts:39-51 | A legal payout path never repeats a status, has at most five, and ends as soon as the balance is restored. |
| `StateMachine.CheckoutNeverWalksBack` | src/lib/stateMachine.ts:26-37 | A legal checkout path never repeats a status, has at most three, and ends when paid. |
| `StateMachine.ReachIsExact` | src/lib/stateMachine.ts:39-51 | The statuses said to be reachable are exactly the ends of legal paths. |
| `Money.RoundsHalfUp` | src/lib/money.ts:86-89 | The integer formula rounds to the nearest integer, halves upwards. |
| `Money.HalfUpUnique` | src/lib/money.ts:86-89 | There is only one such rounding. |
| `Money.CheckoutFeeMeans` | src/lib/money.ts:91-99 | The checkout fee is two percent of the face rounded half-up plus 20 naira, nothing on nothing, and refused exactly out of range. |
| `Money.WithdrawalFeeMeans` | src/lib/money.ts:144-174 | The withdrawal fee is 100 naira below 50,000 and 200 from there on, less the discount rounded half-up; refused exactly for an amount that is not kobo or a discount outside 0 to 100. |
| `Money.BasketSaves` | src/lib/money.ts:91-99 | For n positive dues, separate fees exceed the basket fee by between 1999(n-1) and 2001(n-1) kobo. |
| `Money.DiscountBounds` | src/lib/money.ts:163-168 | A discount of 0 to 100 percent takes off its share of the fee rounded half-up, never more than the fee. |
| `Money.WithdrawalSplits` | src/lib/money.ts:170-174 | Every permitted withdrawal splits exactly into net and fee, and at least 90,000 kobo is always sent. |
| `Money.LeastNet` | src/lib/money.ts:170-174 | That least amount is sent if and only if the gross is the minimum and the discount takes nothing off the fee. |
| `Money.ThresholdDip` | src/lib/money.ts:144-147 | Undiscounted, asking for more sends less if and only if the two amounts straddle the threshold by less than the step in the fee. |
| `Money.Allocate` | src/lib/money.ts:120-142 | The loop returns the apportionment for any non-negative weights, and a range error for a total that is not kobo. |
| `Money.ApportionedCorrect` | src/lib/money.ts:115-142 | The parts add up to the total, are not negative, and follow the largest-remainder rule: floors, plus one for the largest remainders, earlier ones first on ties. |
| `Money.NothingWeighed` | src/lib/money.ts:124-129 | When every weight is zero the total is shared evenly, with what is left over on the first part. |
| `Money.ExactSharesStayExact` | src/lib/money.ts:130-142 | A share without remainder never gets an extra unit. |
| `Money.LargerWeightLargerPart` | src/lib/money.ts:130-142 | A larger weight never gets a smaller part. |
| `Money.ApportionmentUnique` | src/lib/money.ts:115-142 | Only one sequence of parts meets the rule. |
| `Decimal.DecimalRoundTrip` | src/lib/money.ts:40-62 | Parsing what was printed gives back every safe amount of kobo. |
| `Decimal.PrintsTwoDecimals` | src/lib/money.ts:40-45 | An amount prints as its whole naira without leading zeros, a point and exactly two digits of kobo, and is refused exactly out of range. |
| `Decimal.DecimalMeansHalfUp` | src/lib/money.ts:47-62 | A numeral with any number of decimals is read as its exact value rounded half-up to the kobo, and refused exactly when that is out of range. |
| `Decimal.RefusesNonNumerals` | src/lib/money.ts:52-55 | Anything that is not digits with an optional fraction, after trimming, is refused. |
| `Decimal.MatchIffReads` | src/lib/money.ts:54-57 | The pattern's groups are exactly the whole and fractional digits of the numeral. |
| `Decimal.TrimMeans` | src/lib/money.ts:52-54 | The spaces around a numeral, and nothing else, are dropped before it is read. |
| `WebhookQueue.Queue.Enqueue` | src/services/webhookProcessor.service.ts:30-39 | Stores an event unless its provider and id are stored, and says which; an ignored event is stored as processed. |
| `WebhookQueue.Queue.RecordMalformed` | src/services/webhookProcessor.service.ts:41-54 | Stores a malformed event as dead, once. |
| `WebhookQueue.Queue.ClaimBatch` | src/jobs/webhookWorker.ts:34-51 | Claims the batch: lock time set, one attempt counted, every other row as it was. |
| `WebhookQueue.ClaimTakesTheDue` | src/jobs/webhookWorker.ts:34-51 | A claim takes only rows that wait and are due or whose lock is older than five minutes, at most ten, locks them and counts an attempt; a due row it leaves behind arrived no earlier than the ten it took. |
| `WebhookQueue.BatchIsOldest` | src/jobs/webhookWorker.ts:42-50 | A batch holds distinct claimable rows, all of them if fewer than ten, and none left waiting arrived before one taken. |
| `WebhookQueue.Queue.RunOne` | src/jobs/webhookWorker.ts:53-76 | Records a normal return as processed, and a throw as failed with a backoff or, from the eighth attempt, as dead. |
| `WebhookQueue.Queue.Drain` | src/jobs/webhookWorker.ts:78-88 | A drain handles each claimable row at most once, leaves every other row alone, counts what it handled, and leaves nothing claimable unless its batches ran out. |
| `WebhookQueue.BackoffDoubles` | src/jobs/webhookWorker.ts:21-24 | The wait starts at ten seconds, doubles with each attempt and never passes an hour. |
| `WebhookQueue.RetriesComeSoon` | src/jobs/webhookWorker.ts:21-24 | A row that will be tried again waits at most 640 seconds. |
| `QueueRuns.StepKeepsInv` | src/jobs/webhookWorker.ts:34-76 | Every step of any number of workers keeps the queue invariant. |
| `QueueRuns.StoredOnceHandledHonestly` | src/services/webhookProcessor.service.ts:20-23 | In every run an event is stored once, and an event that is not ignored is processed only if its handler returned normally. |
| `QueueRuns.NothingIsStuck` | src/jobs/webhookWorker.ts:6-15 | Whatever became of its workers, 640 seconds later at most a row is processed, dead or claimable. |
| `QueueRuns.EightTimesOneAtATime` | src/jobs/webhookWorker.ts:17-19 | A row never taken from a stalled worker has its handler called at most eight times, by one worker at a time. |
| `QueueRuns.ClosedUnlessLateFailure` | src/jobs/webhookWorker.ts:53-72 | A step reopens a processed or dead row if and only if it is the late failure report of a worker that still held it. |
| `QueueRuns.ClosedForGood` | src/jobs/webhookWorker.ts:53-72 | A closed row that is never reclaimed never changes again. |
| `QueueRuns.ProcessedIsNotFinal` | src/jobs/webhookWorker.ts:43-46 | A concrete run in which a worker that outlived its lock reopens a processed row. |
| `Idempotency.Store.Serve` | src/middleware/idempotency.ts:41-104 | One undisturbed request: a live key answers for the handler (reused, in progress or replayed), and otherwise the handler runs once and its answer is kept exactly if it is a 2xx. |
| `Idempotency.Store.Claim` | src/middleware/idempotency.ts:33-39 | A claim is won exactly when the key is free. |
| `Idempotency.StepKeepsKey` | src/middleware/idempotency.ts:52-98 | Whoever is in the handler goes on owning the key alone, and what is stored under it stays true, if and only if the step is none of three: the owner's connection closes on its running handler, a request finds the row expired, or a purge drops the expired row of an owner. |
| `Idempotency.StepRemembers` | src/jobs/reconciliation.ts:111-113 | While the key is so kept, a 2xx stays on record and keeps everyone else out of the handler, if and only if the step is not the purge of its expired row. |
| `Idempotency.OneInsideAtATime` | src/middleware/idempotency.ts:12-14 | In every run without one of those three steps at most one request with the key is inside the handler. |
| `Idempotency.CrowdedExactlyBySecondEntry` | src/middleware/idempotency.ts:33-39 | From at most one request with the key in the handler to two takes exactly a claim of the free key while another one is in the handler. |
| `Idempotency.CrowdedRunsExactly` | src/middleware/idempotency.ts:12-14 | A run ever has two in the handler if and only if some step of it is such a claim, |
| `Idempotency.CrowdingTakesTheKey` | src/middleware/idempotency.ts:79-97 | and only if one of the three steps came before. |
| `Idempotency.SuccessIsFinal` | src/middleware/idempotency.ts:17-18 | In every run without those steps and without the purge of a stored success, once a request with the key was answered with a 2xx no request with that key is inside the handler again. |
| `Idempotency.SuccessIsReplayed` | src/middleware/idempotency.ts:52-98 | Once a 2xx is stored, the next request with that key within the day is answered with it if its fingerprint is the same and refused if not, without entering the handler. |
| `Idempotency.FailureFreesTheKey` | src/middleware/idempotency.ts:79-98 | Any other ending, a silent one included, leaves the key free, and the next request with it enters the handler. |
| `Idempotency.LoserTakesOver` | src/middleware/idempotency.ts:55-75 | A request that lost the claim and then finds the key gone, or expired and so dropped, claims it again and enters the handler. |
| `Idempotency.ReplaysAreYourOwn` | src/middleware/idempotency.ts:15-18 | In every run without those three steps a replay repeats the 2xx of a request with the same key and the same fingerprint. |
| `Idempotency.EarlyCloseAdmitsTwo` | src/middleware/idempotency.ts:79-97 | A named run, within the key's window at every step, in which one early close and a retry put two requests in the handler. |
| `Idempotency.ExpiredKeyAdmitsTwo` | src/middleware/idempotency.ts:57-60 | A named run past the key's window in which two requests that both found it expired are in the handler. |

## Left out

- What is found before a transaction (roles, suspension, freeze, security code, holds, identity verification, membership, earlier payments) is part of the request, in the order the source tests it, as are the partner discount, the lead rep, the signatory set read by a step, one-time codes and random references.
- Withdrawal.CreateWithdrawal: the requested due is read together with the transaction, while the source reads it just before; a due never changes its space, so only a reassignment in between could tell the two apart. How a code is judged, and which account a target resolves to, are inputs.
- Withdrawal.FailPayout: asks that the stored gross is a positive safe amount, which every row created by a request has; the source would abort its transaction otherwise. The same holds for the other methods that restore a balance. An id that names no row, on which the locked look-ups throw, is not passed by any caller and not modelled.
- Checkouts.FulfilCheckout: asks that the stored lines have distinct dues of the checkout's space and positive faces, which every created checkout has; as above, the id names a row, since FindCheckoutId found it.
- Checkouts.ManuallyCredit: the user and membership look-ups are inputs; a concurrent duplicate is refused by the same checks inside the transaction.
- Checkouts.CreateCheckout: the dues are read together with the locked section, while the source reads them just before; what was found of the payer and the space is an input.
- Events.ProcessEvent: an identity update changes nothing here; refreshing an identity is not part of this model.
- Approval.RejectPayout: the rejection record and the cancellation are two writes of one undisturbed call here; in the transition system they are separate steps that others may come between.
- Decimal.DecimalMeansHalfUp: string inputs only, over mathematical integers; the rounding of doubles beyond the safe range and the number-typed input are not modelled.
- Money.RoundsHalfUp: over mathematical integers; a double holds the products exactly for every amount the limits allow.
- WebhookQueue.Queue.Drain: one clock reading and a fixed outcome for each row and attempt stand for the clock and the handlers of one undisturbed drain; workers that interleave are in QueueRuns, where a batch is claimed row by row.
- Idempotency.Store.Serve: one undisturbed request; interleavings are the steps of the same module.
- PayoutSweeps.SweepSettles: says where a retry and a refresh lead once the provider has decided, not that a sweep will run or when a row is old enough for it.
- Reconciliation.ReconcilePayouts: the two batches come from queries by age, which are inputs; fee settlement is left out.
- Row ids are positions; deleting a draft due, which nothing refers to, is not modelled. A destination stands for the provider account and the destination id together. Provider checkout ids are an input of event handling.
- Informational ledger columns (gross, fee, net, description, actor), review reasons and failure texts, notifications, e-mail, audit rows and receipts' numbers.
- Fee settlement with the provider and provider account totals: the code does not guarantee that they agree with the ledger.
- Refund entries: no live service writes them; the summary's arithmetic over them is proved (LedgerSummary.BalanceByType).
- HTTP routing, authentication, validation schemas, PIN and code hashing, KYC, partners, polls, referrals, assistant, metrics and admin reports: no hard invariant.
- The provider's wire format and signatures, legacy Anchor rows and backfill scripts.
