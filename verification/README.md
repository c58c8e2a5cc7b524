# The money path, modelled and proved

A Dafny 4.11 model of what a payment passes through from creation to settlement: approval, execution,
the settlement saga, the double-entry ledger, journals, delivery of events and jobs, the audit chain
and statement matching. The original is a set of services that work in small database transactions and
unreliable calls; what it promises is safety under crashes, retries, duplicate jobs and concurrent
requests, and that is what is proved here.

`dafny verify dfyconfig.toml` checks the whole project.

## How the model is built

- **Step systems.** Where the original interleaves, a module has a `State`, a `Step` for every
  statement or transaction of every participant, a total function `Apply` (a step that is not enabled
  changes nothing) and `RunAll` over any list of steps. A call has three outcomes (`Basics.Outcome`):
  effect and ok, effect and error, no effect and error. A crash is a step that drops a participant
  between two statements. Safety results are for-all statements over `RunAll`.
- **Classes.** Where the original updates rows, fields and local sets one statement after the other,
  a class has those fields and a method per operation, with the loops of the original. Each
  method is proved equal to the function or to the run of the step system that the theorems are about.
- **Decisions.** What an operation answers and writes is stated a second time without its own function:
  case by case and exactly when, over the fields of its rows, the request and the way its calls end
  (`PolicyDecisions`, `PaymentDecisions`, `DebitTheorems`, `JobDecisions`, `RelayDecisions`, `StatementReasons`,
  `StatementRows`, `MoneyText`, `RequestKeys`, and lemmas beside the functions elsewhere).
- **Values.** Money is an integer number of cents, or an exact rational where rates and shares are the
  point. Timestamps are integers. A tenant is a key on each row.

| file | models |
|---|---|
| `Saga.dfy`, `SagaTheorems.dfy`, `SagaResume.dfy`, `SagaWorker.dfy` | the settlement saga with its submission row, provider, ledger, journal and Matched row |
| `SagaBooks.dfy`, `SagaWorld.dfy` | what a settled payment has moved; many payments over one rail and one ledger |
| `Custody.dfy` | the custody adapters and their idempotency contract |
| `Ledger.dfy`, `DebitTheorems.dfy`, `LedgerConcurrency.dfy` | the double-entry ledger, the debit handler, concurrent debits |
| `Accounting.dfy` | journal batches, created once |
| `Lifecycle.dfy`, `Payments.dfy`, `PaymentTheorems.dfy`, `PaymentCreation.dfy`, `PaymentDecisions.dfy`, `PaymentService.dfy`, `Expiry.dfy` | the status graph and its trigger, approvals, execution, cancellation, retry, expiry |
| `RequestHash.dfy`, `RequestKeys.dfy`, `CreateIdempotency.dfy` | request fingerprints and idempotent creation |
| `Outbox.dfy`, `Delivery.dfy`, `DeliveryAttempts.dfy`, `DeliveryPolls.dfy`, `Relay.dfy`, `RelayDecisions.dfy` | outbox, inbox, relays |
| `Jobs.dfy`, `JobCompletion.dfy`, `JobQueue.dfy`, `JobDecisions.dfy` | the job queue and its workers |
| `AuditChain.dfy`, `AuditAppend.dfy` | the audit hash chain: verifier, tampering, appends, migration |
| `StatementIngest.dfy`, `StatementMatcher.dfy`, `StatementReasons.dfy`, `StatementRuns.dfy`, `StatementTransactions.dfy`, `StatementRows.dfy` | provider statements, taken in and matched against payments |
| `Money.dfy`, `MoneyText.dfy`, `Policy.dfy`, `PolicyDecisions.dfy` | money text, rounding, policy evaluation, concentration |

## What does not hold, and exactly when it does

- **One transfer per payment.** The adapter is chosen from the provider of the run's own context; the
  provider recorded in the submission row is not consulted. At most one transfer is made over all runs
  and retries if and only if all providers the source wallet may be assigned to are served by one
  adapter (`SagaTheorems.AtMostOneTransferExactlyWhen`).
- **The settlement update** can be refused by the trigger, exactly when it finds the payment Failed
  (`Payments.SettleRefusedExactlyFromFailed`); two runs of one payment can produce that
  (`PaymentTheorems.SettlementIsRefusedAfterFailure`).
- **Create idempotency** is lost when a commit took effect but was reported as an error and the catch block
  then deletes the completed key. A key yields one payment for every such deletion, and one more if it is
  completed at the end (`CreateIdempotency.PaymentsAreLostKeys`); so at most one over every run if and only
  if a completed key is never deleted (`CreateIdempotency.AtMostOnePaymentExactlyWhen`). Counted by
  ambiguous commits alone the exact bound is n + 1 (`CreateIdempotency.AmbiguityAllowsExactly`).
- **The request fingerprint** drops members named `__proto__`, because assigning that key to a fresh
  object sets its prototype. Two bodies have one canonical form if and only if they are key-permuted after
  leaving such members out (`RequestHash.SameCanonicalExactlyWhenPermuted`).
- **Delivery attempts** stay within `max(MAX_RETRIES, 1)` over every run if and only if at most one relay
  polls (`DeliveryAttempts.LimitHoldsExactlyForOneRelay`), since counting an attempt does not look at the
  row's state. With R relays the exact bound is `max(MAX_RETRIES, 1) + R - 1`
  (`DeliveryAttempts.AttemptsAtMostExactlyWhen`).
- **A completed job** stays completed over every run if and only if neither statement of `completeJob` ends
  in an error after the job was completed (`JobCompletion.CompletedIsFinalExactlyWhen`): otherwise the
  worker fails the job it has just completed, and it is run again or dead-lettered
  (`JobCompletion.CompletedJobIsFailed`).
- **A matched statement line** stays as it is over every run if and only if runs of the matcher do not
  overlap (`StatementRuns.MatchedIsFinalExactlyWhen`): a run that read its lines before another one matched
  them takes each for a duplicate of itself. In the same way a reference has one matched line over every
  interleaving of statements if and only if matcher transactions do not overlap
  (`StatementTransactions.OneLinePerReferenceExactlyWhen`).
- **Resuming** after a crash ends with the effects of a run without one, except that a Matched row inserted
  by the statement matcher in between is kept; the effects are the same if and only if there is no such row
  (`SagaResume.ResumeEqualsCrashFree`).
- **Concentration shares** can exceed one when the outflow is not covered by the paid asset; the projected
  value is a share exactly under the condition of `Policy.ProjectedIsAShareExactlyWhen`. A payment that
  passes the balance check is always covered (`Policy.UnblockedPaymentsAreCovered`); an uncovered one can
  reach a share of two (`Policy.UncoveredOutflowExceedsOne`).
- **The audit serialization** says which event of its tenant and time a row is of if and only if none of its text columns holds U+001F
  (`AuditChain.MaterialDeterminesExactlyCleanEvents`, `AuditChain.JoinDeterminesExactlyCleanFields`); it is
  enough that the honest rows have none (`AuditChain.JoinInjective`).

Where comments and code disagree the model follows the code: `packages/shared/money.mjs:11` says
half-up, while negative amounts round half away from zero; the header of
`services/job-worker/src/handlers/payment-saga.mjs:46-53` takes the provider's idempotency to cover every retry, which needs
the single adapter above; `services/reconciliation-service/src/statements.mjs:111-113` describes re-runs that
only pick up lines not yet matched, which needs runs that do not overlap.

## Model

| member | source | states |
|---|---|---|
| SagaTheorems.EffectsComeInOrder | services/job-worker/src/handlers/payment-saga.mjs:18-133 | in every state reachable by interleaved, duplicated or stopped runs and retries: Settled implies a full journal batch and exactly one Matched row; a journal implies the posted debit; the debit implies a persisted reference and takes exactly amount plus fee; the reference is one the provider accepted under the payment's key |
| SagaTheorems.AtMostOneTransfer | services/job-worker/src/handlers/payment-saga.mjs:57-93 | with one adapter, at most one external transfer over all runs and retries, and a persisted reference is that transfer's |
| SagaTheorems.ReferenceNeverChanges | services/job-worker/src/handlers/payment-saga.mjs:89-92 | with one adapter, a reference once non-empty never changes |
| SagaTheorems.AtMostOneTransferExactlyWhen | services/job-worker/src/handlers/payment-saga.mjs:58-72 | at most one transfer on every run if and only if the wallet's possible providers share one adapter |
| SagaTheorems.TwoAdaptersTwoTransfers | services/job-worker/src/handlers/payment-saga.mjs:58-87 | a lost reply, then a retry after the provider moved to another adapter: two transfers |
| SagaWorld.KeysAreOwn | services/job-worker/src/handlers/payment-saga.mjs:59-114 | two payments have the same rail key, or the same debit key, only if they are one payment |
| SagaWorld.EchoDoesTheSame | services/job-worker/src/handlers/payment-saga.mjs:18-133 | whatever statement a run of one payment executes, another payment sees a transfer under a key not its own or a ledger change that leaves its posting alone |
| SagaWorld.EachRunsAsIfAlone | services/job-worker/src/handlers/payment-saga.mjs:18-133 | of any number of payments over one rail and one ledger, each goes through a run of its own step system |
| SagaWorld.SettledHasItsOwn | services/job-worker/src/handlers/payment-saga.mjs:57-133 | in such a world a settled payment has its own receipt from the one transfer under its key, its own debit and its own journal |
| SagaWorld.TwoSettledTwoTransfers | services/job-worker/src/handlers/payment-saga.mjs:57-93 | two settled payments have two transfers on the rail |
| SagaBooks.SettledIsBookedEverywhere | services/job-worker/src/handlers/payment-saga.mjs:95-132 | over every run a settled payment has taken amount plus fee from the source wallet, given the amount to one other wallet or to clearing and the fee to the fee account, and its journal moves the same amounts on the accounts of its type |
| SagaBooks.DebitStepPosts | services/job-worker/src/handlers/payment-saga.mjs:102-115 | the debit of a run posts one transaction for the payment under its debit key, and the destination named by the context gets the amount exactly if it is another active wallet of the tenant and asset |
| SagaBooks.JournalStepWrites | services/job-worker/src/handlers/payment-saga.mjs:122-123 | the journal a run writes is the payment's, in the entity and currency of the run's context |
| SagaBooks.BookedForGood | services/job-worker/src/handlers/payment-saga.mjs:95-132 | a posted debit, a written journal and a Matched row, by whomever inserted, are never changed or made again, whatever runs afterwards |
| SagaBooks.NothingMovesUncleared | services/job-worker/src/handlers/payment-saga.mjs:32-45 | until some run has had the payment cleared there is no submission, transfer, reference, debit or journal, and it is not settled |
| SagaBooks.VerdictDecides | services/job-worker/src/handlers/payment-saga.mjs:35-44 | a blocked payment is failed, if still executing; one to be reviewed is left as it is; only a cleared run goes on |
| Saga.StepKeepsCore | services/job-worker/src/handlers/payment-saga.mjs:18-133 | every statement of every run, and everything else that touches the same rows, keeps the invariant tying each run's program counter and stale locals to the stored state |
| Saga.DebitShows | services/wallet-service/src/index.mjs:65-113 | after the saga's debit the book holds, under its key, lines that take amount plus fee from the source; a debit already posted or refused leaves the book as it was |
| Saga.OtherDebitsLeaveItAlone | services/wallet-service/src/index.mjs:52-117 | a debit under any other key leaves the book sound and this payment's posting as it is, so it is among what the step system lets the ledger do |
| SagaResume.AddsOnlyWhatIsMissing | services/job-worker/src/handlers/payment-saga.mjs:25-133 | from every reachable Executing state an uninterrupted cleared run ends Settled, leaves every effect already made as it was and adds only the missing ones |
| SagaResume.ResumesTheSameTransfer | services/job-worker/src/handlers/payment-saga.mjs:57-93 | the transfer a resumed run ends with is the one already made |
| SagaResume.ResumeEqualsCrashFree | services/job-worker/src/handlers/payment-saga.mjs:25-133 | after any crashes and duplicates, an uninterrupted run ends with the transfer, entries and journal of a run with no crash; its Matched row is the saga's own too, unless the statement matcher had inserted one, which is kept |
| SagaResume.EffectsOfUninterrupted | services/job-worker/src/handlers/payment-saga.mjs:96-132 | those effects depend on nothing but the payment, the context, the wallets, the transfer and a Matched row already there |
| SagaResume.SettledRunsDoNothing | services/job-worker/src/handlers/payment-saga.mjs:25-28 | a run on a settled payment changes nothing |
| SagaWorker.Database.ExecutePaymentSaga | services/job-worker/src/handlers/payment-saga.mjs:18-133 | the handler executed statement after statement leaves exactly the state of one run of the step system, for every way its calls can end; it settles an executing payment exactly if it is cleared, gets a reference, is debited, journalled and matched, and the update takes effect, and fails it exactly if it is blocked or the provider was tried in vain |
| SagaWorker.Database.EnsureProviderSubmission | services/job-worker/src/handlers/payment-saga.mjs:198-210 | insert unless present, then read: an existing row is returned untouched |
| SagaWorker.Database.FailPaymentIfExecuting | services/job-worker/src/handlers/payment-saga.mjs:180-184 | only an Executing payment is failed |
| Custody.SubmitKeepsIdempotent | packages/shared/adapters/custody.mjs:30-40 | a submission keeps one transfer per adapter and key, and returns the receipt of that transfer |
| Custody.OneAdapterOneTransfer | packages/shared/adapters/custody.mjs:30-40 | one adapter for a key means at most one transfer under it |
| Custody.SimulatedCustodyAdapter.SubmitTransfer | packages/shared/adapters/custody.mjs:30-40 | a known key returns the stored receipt and makes no transfer; a new key makes one |
| Custody.CrashOnceThenIdempotentAdapter.SubmitTransfer | packages/shared/adapters/custody.mjs:62-74 | the first call makes the transfer and throws; later calls with the key return it |
| Ledger.DebitKeepsSound | services/wallet-service/src/index.mjs:52-117 | a debit keeps every posting balanced, single-asset and uniquely keyed, and no wallet goes below zero |
| Ledger.PostDebitMoves | services/wallet-service/src/index.mjs:82-113 | a posted debit takes principal plus fee from the source, gives the principal to the destination wallet if there is one, and moves no other wallet |
| DebitTheorems.AnswersExactlyWhen | services/wallet-service/src/index.mjs:30-116 | every answer of the debit route, refusals and replay included, exactly when it is given |
| DebitTheorems.PostedDebitMoves | services/wallet-service/src/index.mjs:82-113 | a posted debit takes amount and fee from the source, gives the amount to the wallet named exactly when that is another active wallet of the tenant and asset, and moves no other wallet |
| DebitTheorems.PostedDebitCredits | services/wallet-service/src/index.mjs:95-105 | the clearing account is credited with the amount exactly when no wallet is, and the fee account with the fee |
| DebitTheorems.PostedDebitAppends | services/wallet-service/src/index.mjs:107-113 | one transaction under the key, for the payment, with entries in accounts of the tenant and asset, is all that is added |
| Ledger.ReplayChangesNothing | services/wallet-service/src/index.mjs:65-72 | a used idempotency key leaves the whole book unchanged, whatever else the request says |
| Ledger.DebitThenReplay | services/wallet-service/src/index.mjs:65-116 | a successful debit followed by itself is a replay that reports the same amount and balance |
| Ledger.Conservation | db/migrations/0010_ledger.sql:58-78 | balanced single-asset postings leave the entries of every asset at net zero |
| Ledger.AccountsOfAnAssetSumToZero | services/wallet-service/src/ledger.mjs:40-65 | the balances of all accounts of an asset add up to zero |
| Ledger.ViewIsRunningBalance | db/migrations/0010_ledger.sql:80-89 | the derived view is the running balance of the wallet's own account |
| Ledger.LedgerStore.DebitWallet | services/wallet-service/src/index.mjs:52-117 | the handler as one transaction has the effect and the answer of the specification, refusals included |
| Ledger.LedgerStore.PostTransaction | services/wallet-service/src/ledger.mjs:40-65 | a new key appends the transaction and its lines, a used key nothing |
| Ledger.LedgerStore.GetWalletBalance | services/wallet-service/src/ledger.mjs:29-35 | credits minus debits of the wallet's account |
| Ledger.LedgerStore.TriggerAccepts | db/migrations/0010_ledger.sql:58-72 | accepts a transaction exactly when its lines balance |
| LedgerConcurrency.NeverOverdrawn | services/wallet-service/src/index.mjs:52-117 | no wallet balance is ever negative under any interleaving, although only the source row is locked and credits take no lock |
| LedgerConcurrency.ConservedAlways | services/wallet-service/src/index.mjs:82-113 | every asset nets to zero in every reachable state |
| LedgerConcurrency.SoundFromTheStart | services/wallet-service/src/index.mjs:52-117 | from an empty book on no wallet is overdrawn and every asset nets to zero |
| LedgerConcurrency.AloneIsOneTransaction | services/wallet-service/src/index.mjs:52-117 | the statements without interference are the one transaction of the specification |
| LedgerConcurrency.StagesAdvance | services/wallet-service/src/index.mjs:52-117 | a debit transaction makes its statements once and in order, or ends |
| LedgerConcurrency.TopUpCredits | services/wallet-service/src/seed.mjs:34-48 | a credit reaches its wallet whoever holds the lock, once per key, and no other wallet |
| LedgerConcurrency.TopUpIsFunded | services/wallet-service/src/seed.mjs:34-48 | it comes from the opening-balance account of the tenant and asset |
| LedgerConcurrency.WalletChangesBetweenDebits | services/wallet-service/src/index.mjs:56-63 | a wallet is opened or closed exactly while no debit of it is under way |
| Accounting.AcceptedBatch | services/accounting-service/src/journals.mjs:5-57 | accepted exactly for a positive amount and a fee not negative; then three balanced lines over distinct accounts, each on one side, for their sum, the amount and the fee |
| Accounting.BatchMovesExactly | services/accounting-service/src/journals.mjs:22-56 | account by account: the sum leaves the cash equivalent, the fee is an expense, the amount is on the intercompany account for a payment inside the group and on the supplier account otherwise, nothing else moves, all in the books of the payment's tenant and entity |
| Accounting.AddedExactlyWhen | services/accounting-service/src/index.mjs:23-48 | the route adds the batch exactly for a payment without rows, with a positive amount and a fee not negative |
| Accounting.CreatedOnce | services/accounting-service/src/index.mjs:19-49 | the first accepted bill fixes the batch of a payment; later ones return it and change nothing |
| Accounting.AssertBalanced | services/accounting-service/src/journals.mjs:59-65 | refuses exactly the batches whose debits and credits differ |
| Accounting.JournalStore.CreateFromPayment | services/accounting-service/src/index.mjs:19-49 | the route inserts the batch row by row and leaves the table of the specification |
| Lifecycle.TriggerDecides | db/migrations/0017_retry_transitions.sql:15-37 | an update is let through exactly when it changes nothing or enters its status by one of the entrances; a change, and only a change, is logged |
| Lifecycle.AbsorbingStays | db/migrations/0017_retry_transitions.sql:19-32 | nothing follows Settled, Cancelled or Blocked in an event log |
| Lifecycle.StartsExecutingOnce | db/migrations/0017_retry_transitions.sql:19-32 | a log passes from Approved to Executing at most once |
| Lifecycle.UpdateKeepsWalk | db/migrations/0017_retry_transitions.sql:15-37 | an accepted update keeps the log a connected path ending at the current status |
| Payments.SettleRefusedExactlyFromFailed | services/job-worker/src/handlers/payment-saga.mjs:130-132 | the unguarded settlement is refused exactly when it finds Failed |
| Payments.StepKeepsInv | services/payment-service/src/payments.mjs:206-404 | every statement of every call keeps the invariant on rows, calls in flight, launches and refusals |
| Payments.DistinctCounts | services/payment-service/src/payments.mjs:264-269 | without repeated rows the distinct count is the number of rows |
| PaymentTheorems.StatusRuns | db/migrations/0017_retry_transitions.sql:7-43 | after any interleaving the log is a walk of the graph ending at the status, and absorbing statuses are last |
| PaymentTheorems.AbsorbedForGood | services/payment-service/src/payments.mjs:206-404 | from an absorbing status on, no call and no sweep changes the payment's rows |
| PaymentTheorems.AtMostOneJob | services/payment-service/src/payments.mjs:309-321 | execution enqueues at most one job in a lifetime, exactly when the log holds the passage to Executing |
| PaymentTheorems.OnlySettlementIsRefused | services/payment-service/src/payments.mjs:206-404 | the only application write the trigger refuses is the settlement, from Failed |
| PaymentTheorems.SettlementIsRefusedAfterFailure | services/job-worker/src/handlers/payment-saga.mjs:130-132 | one run fails the payment, another settles: refused |
| PaymentTheorems.ApprovalsCountApprovers | services/payment-service/src/payments.mjs:128-148 | the approvals column is the number of distinct approvers and at most max(required, 1) |
| PaymentCreation.CreationDecides | services/payment-service/src/payments.mjs:121-143 | creation leaves Blocked exactly for a Blocked evaluation, Approved exactly for a Clear one of a payment that requires no approval, then with the policy as the one approver, and Pending otherwise |
| PaymentCreation.ApproversAsked | services/payment-service/src/payments.mjs:121-148 | over every run an approver has asked to approve, or is the policy and the payment was created under a Clear evaluation requiring no approval |
| PaymentCreation.ApprovedOnlyBySomebody | services/payment-service/src/payments.mjs:206-281 | a payment not approved at creation reaches Approved, Executing, Failed or Settled only with an approver who asked to approve it |
| PaymentDecisions.ApprovalDecides | services/payment-service/src/payments.mjs:206-281 | an approval request adds its user exactly under a Clear evaluation for a user who may approve a pending payment, the last approval required approves it, and a Blocked evaluation blocks it |
| PaymentDecisions.ExecutionDecides | services/payment-service/src/payments.mjs:283-324 | an execution request launches an approved payment with one job exactly under a Clear evaluation, and blocks it under a Blocked one |
| PaymentDecisions.TransactionsDecide | services/payment-service/src/payments.mjs:326-375 | what cancelling, retrying, failing, expiring and settling move from and to, each change logged, and that nothing else changes |
| PaymentDecisions.CallsStartExactlyWhen | services/payment-service/src/payments.mjs:206-375 | each call goes beyond its first reading exactly in the statuses it accepts |
| PaymentDecisions.CancelAndRetryAlone | services/payment-service/src/payments.mjs:326-375 | the step system without interference gives the effect of a cancellation and of a retry |
| PaymentTheorems.EnoughApproversWhenLaunched | services/payment-service/src/payments.mjs:283-324 | a payment launched has at least as many distinct approvers as the policy read by that call's evaluation demands |
| PaymentTheorems.CreatorNeverApproves | services/payment-service/src/payments.mjs:230-238 | with authentication on, a recorded creator is no approver unless some approval read a policy allowing it |
| PaymentTheorems.SagaKnowsEveryChange | services/payment-service/src/payments.mjs:206-404 | for every status change this service makes the saga's step system has a step that makes the same change to a saga state and no other |
| PaymentService.CountDistinct | services/payment-service/src/payments.mjs:264-269 | counts the distinct approvers |
| PaymentService.PaymentRow.UpdateStatus | db/migrations/0017_retry_transitions.sql:15-37 | the update and its trigger: raised and unchanged, or moved and logged |
| PaymentService.PaymentRow.TransitionInTx | services/payment-service/src/payments.mjs:388-404 | moves only from the expected status |
| PaymentService.PaymentRow.ApproveInTx | services/payment-service/src/payments.mjs:242-280 | refuses an approver twice; otherwise inserts, recounts and sets the status |
| PaymentService.PaymentRow.ApprovePayment | services/payment-service/src/payments.mjs:206-281 | the command leaves what its steps leave; a refusal changes nothing; success blocks or records the approver |
| PaymentService.PaymentRow.ExecutePayment | services/payment-service/src/payments.mjs:283-324 | the command leaves what its steps leave; acceptance means Executing with one job; a refusal changes nothing |
| PaymentService.PaymentRow.CancelPayment | services/payment-service/src/payments.mjs:326-352 | cancels exactly pending and approved payments |
| PaymentService.PaymentRow.RetryExecution | services/payment-service/src/payments.mjs:354-375 | puts a failed payment back to Executing, refuses every other status but Executing, and enqueues one job unless it refuses |
| PaymentService.ApproveAlone | services/payment-service/src/payments.mjs:206-281 | the step system without interference gives the approval's effect, verdict by verdict |
| PaymentService.ExecuteAlone | services/payment-service/src/payments.mjs:283-324 | the same for an execution |
| Expiry.PaymentTable.ExpireStalePayments | services/job-worker/src/handlers/expiry.mjs:10-45 | cancels exactly the pending payments of the named tenants older than 72 hours when their tenant's transaction reads the clock, with one outbox event and one reported id each |
| Expiry.PaymentTable.ExpireTenant | services/job-worker/src/handlers/expiry.mjs:16-38 | one tenant's update, its returned rows and their events |
| Expiry.CancelledOnce | services/job-worker/src/handlers/expiry.mjs:14-40 | the sweep over a list of tenants cancels each due payment once, even when a tenant is listed twice |
| Expiry.SweptAllAtOnce | services/job-worker/src/handlers/expiry.mjs:14-40 | sweeping tenant after tenant is sweeping them all at once; other rows are unchanged |
| Expiry.ReportedExactlyOnce | services/job-worker/src/handlers/expiry.mjs:29-39 | an id is reported once if its payment was due and not otherwise |
| Expiry.DueExactlyWhen | services/job-worker/src/handlers/expiry.mjs:17-23 | due is unapproved and created more than 259,200,000 ms before the clock of a turn of its tenant |
| Expiry.SweepDecides | services/job-worker/src/handlers/expiry.mjs:14-40 | a sweep cancels the overdue payments, logs it, and changes nothing else, not even about them |
| Expiry.EventNamesThePayment | services/job-worker/src/handlers/expiry.mjs:24-36 | the event of a cancelled payment is for the audit chain of its tenant and names the payment |
| RequestHash.SameCanonicalExactlyWhenPermuted | services/payment-service/src/idempotency.mjs:7-23 | equal canonical forms exactly for bodies equal up to key order, leaving out `__proto__` members |
| RequestHash.SortKeysIsIdempotent | services/payment-service/src/idempotency.mjs:12-23 | sorting keys twice is sorting them once |
| RequestHash.ProtoMemberIsInvisible | services/payment-service/src/idempotency.mjs:16-20 | two different bodies with one canonical form |
| RequestHash.BeforeIsAStrictTotalOrder | services/payment-service/src/idempotency.mjs:15-16 | index-like keys by value, then the others by code units, is a strict total order |
| RequestKeys.IndexExactlyWhen | services/payment-service/src/idempotency.mjs:15-16 | a key is enumerated as an index exactly when it is the decimal form of a number below 2^32 - 1 |
| RequestKeys.KeysInOrder | services/payment-service/src/idempotency.mjs:15-16 | indices come first in the order of their values, all other keys after them in the order of their characters |
| RequestKeys.NoBodyIsEmptyObject | services/payment-service/src/idempotency.mjs:7-10 | a missing body has the fingerprint of an empty object, shared only by objects that hold nothing but `__proto__` members |
| CreateIdempotency.OneOwnerAndOwnBody | services/payment-service/src/idempotency.mjs:31-56 | whatever happens the key has at most one owner, and a returned payment was made from the same body up to key order |
| CreateIdempotency.AtMostOnePayment | services/payment-service/src/payments.mjs:90-157 | with unambiguous commits: at most one payment, and every request that returns one returns that one |
| CreateIdempotency.AtMostOnePaymentPerAmbiguity | services/payment-service/src/payments.mjs:128-156 | over any run, at most one payment more than ambiguous commits |
| CreateIdempotency.AmbiguousCommitAllowsASecond | services/payment-service/src/payments.mjs:151-156 | one ambiguous commit makes a second payment possible |
| CreateIdempotency.BoundIsReached | services/payment-service/src/payments.mjs:128-156 | for every n a run with n ambiguous commits makes n + 1 payments |
| CreateIdempotency.AmbiguityAllowsExactly | services/payment-service/src/payments.mjs:128-156 | no more than m payments over every run with at most n ambiguous commits, if and only if m > n |
| CreateIdempotency.PaymentsAreLostKeys | services/payment-service/src/payments.mjs:128-156 | over every run the payments are as many as deletions of the completed key, plus one if it is completed at the end; those are no more than the ambiguous commits |
| CreateIdempotency.PaymentsAtMostExactlyWhen | services/payment-service/src/payments.mjs:151-156 | no more than m payments over every run with at most n deletions of the completed key, if and only if m > n |
| CreateIdempotency.AtMostOnePaymentExactlyWhen | services/payment-service/src/payments.mjs:151-156 | at most one payment over every run if and only if a completed key is never deleted |
| CreateIdempotency.ReplayAnswers | services/payment-service/src/idempotency.mjs:43-54 | under a completed key exactly the key-permuted bodies get the payment back; no other body creates or returns one |
| CreateIdempotency.ReserveAnswersExactlyWhen | services/payment-service/src/idempotency.mjs:31-56 | reserved, refused for another body, in progress or answered with the payment: each exactly when, and only a new key writes the row |
| CreateIdempotency.ReserveEnds | services/payment-service/src/payments.mjs:92-104 | a reservation that took effect stays; only a request told of it goes on, and only one told of a finished payment returns it |
| CreateIdempotency.CommitEnds | services/payment-service/src/payments.mjs:128-156 | the payment and the completed key come together or not at all; the request returns the payment when told of the commit and goes on to release the key when told of an error |
| CreateIdempotency.PaymentStore.ReserveIdempotencyKey | services/payment-service/src/idempotency.mjs:31-56 | inserts a pending row or answers from the existing one |
| CreateIdempotency.PaymentStore.CreatePayment | services/payment-service/src/payments.mjs:90-157 | the command leaves what its steps leave, for every way its calls end; success makes a payment or returns the recorded one |
| Outbox.AppendOutboxEvents | packages/shared/outbox.mjs:18-26 | appends one unpublished row per event, in order |
| Delivery.ExactlyOnceEffect | packages/shared/outbox.mjs:32-56 | with several relays, late or repeated deliveries, lost replies and crashes: at most one effect per event, at its own route, and exactly one when a routed event is marked published |
| Delivery.StepKeepsInv | services/relay-worker/src/index.mjs:42-96 | every statement of relays and consumers keeps the invariant behind it |
| DeliveryAttempts.AttemptsBounded | services/relay-worker/src/index.mjs:105-122 | with R relays at most max(MAX_RETRIES, 1) + R - 1 attempts |
| DeliveryAttempts.BoundIsReached | services/relay-worker/src/index.mjs:79-122 | for every R a run from the empty outbox in which R relays attempt one event max(MAX_RETRIES, 1) + R - 1 times |
| DeliveryAttempts.AttemptsAtMostExactlyWhen | services/relay-worker/src/index.mjs:79-122 | R relays keep attempts within a number over every run if and only if it is at least max(MAX_RETRIES, 1) + R - 1 |
| DeliveryAttempts.LimitHoldsExactlyForOneRelay | services/relay-worker/src/index.mjs:105-122 | attempts stay within max(MAX_RETRIES, 1) over every run if and only if at most one relay polls |
| Relay.AttemptsWithin | services/relay-worker/src/index.mjs:105-122 | with one relay no event exceeds max(MAX_RETRIES, 1) attempts and live events have some left |
| Relay.PollMakesProgress | services/relay-worker/src/index.mjs:42-77 | a completed poll that finds work lowers the summed remaining attempts |
| Relay.PassedOverAtMost | services/relay-worker/src/index.mjs:79-92 | an event is passed over while due by at most a twentieth as many completed polls as its older events have attempts left, which is at most n * max(MAX_RETRIES, 1) / 20 for n older live ones |
| Relay.NeverAttemptedIsPickedSoon | services/relay-worker/src/index.mjs:79-92 | a never-attempted event with n older live ones is taken up within n * max(MAX_RETRIES, 1) / 20 completed polls |
| Relay.Drains | services/relay-worker/src/index.mjs:42-122 | a finite outbox drains: as many completed polls, spaced past the back-off, as there were attempts left leave nothing live |
| Relay.LeftOutBehindFullBatch | services/relay-worker/src/index.mjs:79-92 | a due event is left out only behind a full batch of older ones |
| RelayDecisions.RoutesAreTheCatalog | packages/shared/outbox.mjs:9-13 | three event types, each with an endpoint of its own; every other type has none |
| RelayDecisions.PickedExactlyWhen | services/relay-worker/src/index.mjs:79-92 | a poll takes up an event exactly when it is neither published nor dead-lettered, not waiting, and fewer than twenty older ones are so |
| RelayDecisions.ProcessedExactly | services/relay-worker/src/index.mjs:46-74 | published, counted as an attempt, loop goes on: each exactly when, over every way the delivery and the two statements can end |
| RelayDecisions.AttemptedExactly | services/relay-worker/src/index.mjs:105-122 | a counted attempt dead-letters from the limit on and otherwise puts the next one off by 500 ms, doubled per attempt, a minute at most |
| DeliveryPolls.RowRuns | services/relay-worker/src/index.mjs:46-74 | the statements of the step system about one row do what the loop does to it, and a delivered event has been worked on |
| DeliveryPolls.PollRuns | services/relay-worker/src/index.mjs:42-77 | a poll of the step system that nothing interrupts leaves the table of the poll loop |
| DeliveryPolls.RelaysActInTurn | services/relay-worker/src/index.mjs:42-77 | a relay polls only between batches and sends only events with a route |
| Relay.RelayWorker.PollAndDispatch | services/relay-worker/src/index.mjs:42-77 | the loop leaves the table of the specification, abandoned polls included, and counts every row once |
| Relay.RelayWorker.RecordDeliveryAttempt | services/relay-worker/src/index.mjs:105-122 | one more attempt, then dead-lettered or backed off |
| Jobs.QueueSafety | packages/shared/jobs.mjs:33-122 | a job is held by at most one worker; its attempts are its 'started' rows and at most max(max_attempts, 1); one alert if dead-lettered, else none |
| Jobs.DeadForGood | packages/shared/jobs.mjs:86-107 | a dead-lettered job never changes again, gets no attempt and no second alert |
| Jobs.StepKeepsInv | services/job-worker/src/queue.mjs:19-50 | every statement of every worker keeps the invariant behind them |
| JobCompletion.CompletedStepExactlyWhen | packages/shared/jobs.mjs:75-122 | the only statement that changes a completed job is a `failJob` on it that takes effect |
| JobCompletion.CompletedJobIsFailed | services/job-worker/src/queue.mjs:40-49 | a run from the empty queue in which an error of either statement of `completeJob` gets a completed job failed or dead-lettered |
| JobCompletion.CompletedIsFinalExactlyWhen | packages/shared/jobs.mjs:62-73 | a completed job stays as it is over every run if and only if the first statement never errs after taking effect and the second never errs |
| JobQueue.SelectDue | packages/shared/jobs.mjs:38-45 | selects due jobs, oldest first, at most the limit, leaving out none that is older |
| JobDecisions.ClaimTakesOldest | packages/shared/jobs.mjs:38-45 | the selection is of pending or failed jobs whose time has come, as many as there are up to the limit, ordered, and none left out is due before one taken |
| JobDecisions.OldestIsASelection | packages/shared/jobs.mjs:38-45 | and everything of that kind is a selection |
| JobQueue.Queue.ClaimJobs | packages/shared/jobs.mjs:33-60 | the selected jobs become running under the worker with one attempt more, each with a 'started' row |
| JobDecisions.ClaimDecides | packages/shared/jobs.mjs:33-60 | a claimed job is running, held by its worker, with one attempt more; every other row is as it was |
| JobDecisions.ClaimEnds | packages/shared/jobs.mjs:33-60 | a claim that took effect has claimed its jobs whether the worker learns of it or not; only a worker that does has a batch |
| JobQueue.Queue.CompleteJob | packages/shared/jobs.mjs:62-73 | two statements, either of which may be the last |
| JobQueue.Queue.FailJob | packages/shared/jobs.mjs:75-122 | retry with back-off, or dead-letter with one alert, from the re-read row |
| JobDecisions.FailureDecides | packages/shared/jobs.mjs:75-122 | dead-lettered with one alert exactly from the last attempt on; before it the job is due again exactly after its back-off; attempts are not counted twice and nobody holds the job |
| JobDecisions.FailEnds | services/job-worker/src/queue.mjs:19-50 | after a recorded failure the worker takes its next job; an error in recording leaves the rest of the batch claimed |
| JobDecisions.CrashLeavesTables | services/job-worker/src/queue.mjs:19-50 | a worker that dies leaves the tables as they are |
| JobQueue.Queue.RunJob | services/job-worker/src/queue.mjs:30-50 | the worker's run of one job leaves what its steps leave, raises its alert and counts it: completed, failed, dead-lettered or without a handler |
| JobDecisions.CompleteEnds | packages/shared/jobs.mjs:62-67 | the job is completed when the first statement takes effect; the worker goes on when told so and to its catch block otherwise |
| JobDecisions.LogEnds | packages/shared/jobs.mjs:68-72 | the attempt is logged as a success when the second takes effect; the worker takes its next job when told so |
| JobDecisions.ThrowsExactlyWhenCaught | services/job-worker/src/queue.mjs:40-49 | a run counts as failed exactly when the step system has its worker in the catch block |
| AuditChain.JoinInjective | packages/shared/audit.mjs:10-13 | a text joined from separator-free fields is joined from no other fields |
| AuditChain.SeparatorInAFieldCollides | packages/shared/audit.mjs:10-13 | with a separator inside a field two events share a text |
| AuditChain.JoinDeterminesExactlyCleanFields | packages/shared/audit.mjs:10-13 | a joined text determines its two or more fields if and only if none holds the separator |
| AuditChain.MaterialDeterminesExactlyCleanEvents | packages/shared/audit.mjs:10-25 | after a given predecessor, the hashed text determines the event among those of its tenant and time if and only if none of its text columns holds the separator |
| AuditChain.AcceptedExactlyWhenIntact | packages/shared/audit.mjs:71-100 | the verifier accepts a table exactly when every tenant's chain is numbered, linked and hashed from its first row on |
| AuditChain.ReportLeavesIntactPrefix | packages/shared/audit.mjs:71-121 | on a break the tenant's rows before the reported one form an intact prefix, and tenants ordered before are intact |
| AuditChain.DeletionsPassExactlyWhenPrefix | packages/shared/audit.mjs:95-101 | rows left after deletions alone pass exactly when they are a prefix |
| AuditChain.SameHeadSameChain | packages/shared/audit.mjs:19-43 | a passing chain with the newest hash of an honest one equals it row by row |
| AuditChain.EditIsReported | packages/shared/audit.mjs:98-99 | a row whose event or predecessor hash was edited is reported at itself as a hash mismatch |
| AuditChain.RelinkIsReported | packages/shared/audit.mjs:98-99 | an edited row hashed anew is reported at its successor |
| AuditChain.DeletionIsReported | packages/shared/audit.mjs:98-99 | a deleted row that is not the newest is reported as a gap or a missing genesis |
| AuditAppend.AppendKeepsIntact | packages/shared/audit.mjs:27-43 | one append to an accepted table leaves an accepted table |
| AuditAppend.AppendsVerify | packages/shared/audit.mjs:48-64 | any interleaving of appending transactions under per-tenant locks keeps the table accepted and only adds rows |
| AuditAppend.AcceptedStaysAccepted | packages/shared/audit.mjs:48-64 | from any accepted table, whatever is appended leaves an accepted table that starts with it |
| AuditAppend.TransactionAllOrNothing | packages/shared/audit.mjs:48-64 | a committed transaction has added its events, in order, as the last rows; one rolled back has left no trace; neither holds a lock |
| AuditAppend.Backfill | db/migrations/0032_audit_hash_chain.sql:29-57 | the loop leaves every tenant's chain intact and no recorded field changed, and its rows are accepted in any order |
| AuditAppend.OrderDoesNotMatter | packages/shared/audit.mjs:71-78 | a chain does not depend on where its rows lie in the table |
| AuditAppend.AcceptedInAnyOrder | packages/shared/audit.mjs:71-100 | a table is accepted in one order of its rows exactly when it is in any other, and then with the same chains |
| StatementMatcher.RunGuarantees | services/reconciliation-service/src/statements.mjs:101-236 | a run decides every line of its statement, touches no matched line and no other statement, keeps one matched line per reference, one Matched row per payment and one Open row per payment and issue, and opens a row for every settled in-period payment not listed |
| StatementRuns.RunsGuarantee | services/reconciliation-service/src/statements.mjs:101-236 | over any runs, with ingestions, the saga's rows, other exceptions and resolutions in between, the tables keep these rules, lines keep what was recorded, and rows only go from Open to Resolved |
| StatementRuns.MatchedLineChangesExactlyWhen | services/reconciliation-service/src/statements.mjs:114-179 | a matched line changes exactly in the transaction of a run that read it as not yet matched |
| StatementRuns.MatchedIsFinalExactlyWhen | services/reconciliation-service/src/statements.mjs:114-233 | a matched line stays as it is over every run if and only if no two matcher runs overlap |
| StatementRuns.SecondRunUnmatches | services/reconciliation-service/src/statements.mjs:114-179 | two runs that read one line: the first matches it, the second makes it an exception |
| StatementRuns.RunsDo | services/reconciliation-service/src/statements.mjs:114-236 | a run reads its lines once and its transaction leaves what the matcher makes of the tables it finds |
| StatementRuns.OthersWrite | services/reconciliation-service/src/statements.mjs:142-165 | pending lines, the saga's row exactly where there is no Matched row, rows with other texts, and resolutions: what the others write |
| StatementTransactions.UninterruptedIsTheLoop | services/reconciliation-service/src/statements.mjs:167-216 | a transaction that nobody interrupts leaves the lines as the matcher's loop does |
| StatementTransactions.OneLinePerReferenceExactlyWhen | services/reconciliation-service/src/statements.mjs:167-216 | a reference has at most one matched line over every run of interleaved statements if and only if matcher transactions do not overlap |
| StatementTransactions.TwoAtOnceMatchTwice | services/reconciliation-service/src/statements.mjs:167-190 | two transactions over different statements both match a line to one reference |
| StatementRows.OneMatchedRowAlways | services/reconciliation-service/src/statements.mjs:142-165 | over every interleaving of matcher transactions no payment gets a second Matched row, and none writes over a line another has written and not committed |
| StatementRows.WriteDecides | services/reconciliation-service/src/statements.mjs:142-165 | the write of a match waits for a line or a Matched row another transaction is writing, ends the transaction when the row has come in between, and otherwise leaves the line matched with the row there |
| StatementRows.OthersWrite | services/reconciliation-service/src/statements.mjs:167-216 | what a commit, an ingestion and the saga add to the committed tables |
| StatementRows.TransactionsInTurn | services/reconciliation-service/src/statements.mjs:167-216 | a transaction begins with nothing done, decides a line once before it writes it, and rolled back has not been there |
| StatementMatcher.RunMatchesInjectively | services/reconciliation-service/src/statements.mjs:167-216 | lines newly matched in one run go to payments with pairwise different references |
| StatementMatcher.AssignmentsAreTheNewMatches | services/reconciliation-service/src/statements.mjs:142-165 | those assignments are exactly the newly matched lines, and the summary counts them |
| StatementMatcher.AssignmentsAreJustified | services/reconciliation-service/src/statements.mjs:181-212 | a match is by reference and amount, or, no payment having the reference, by a settled payment of equal asset, amount and day |
| StatementReasons.MatchesHaveReasons | services/reconciliation-service/src/statements.mjs:181-212 | every match of a run has the line's amount and its reference, or, no payment having that reference, is settled in the line's asset with both times in one stretch of 86,400,000 ms from a multiple of it |
| StatementReasons.KnownReference | services/reconciliation-service/src/statements.mjs:181-198 | a line whose reference some payment has, the last such one deciding: matched with certainty for equal amounts, a fee exception for a difference of exactly the fee, an amount exception otherwise |
| StatementReasons.UnknownReference | services/reconciliation-service/src/statements.mjs:200-215 | a line whose reference no payment has goes to the first payment settled in its asset, amount and day and not taken, and is left unmatched exactly when there is none |
| StatementReasons.ClaimedReference | services/reconciliation-service/src/statements.mjs:168-179 | a second line for a matched or taken reference is an exception of its own |
| StatementReasons.LinesHaveOwnKeys | services/reconciliation-service/src/statements.mjs:177-215 | exceptions about different lines are kept under different ids |
| StatementReasons.WorklistIsTheSelect | services/reconciliation-service/src/statements.mjs:121-125 | the lines worked through are those pending or exceptions of the statement, each once |
| StatementReasons.MissingExactlyWhen | services/reconciliation-service/src/statements.mjs:218-233 | an Open row for a payment missing from the statement is there exactly when the payment was settled within the declared period, has a reference and is on no line, or the row was there before |
| StatementReasons.SummaryCounts | services/reconciliation-service/src/statements.mjs:128-165 | the summary counts the lines newly matched and the exceptions newly opened |
| StatementMatcher.ExceptionsAreExplained | services/reconciliation-service/src/statements.mjs:171-215 | every line a run leaves as an exception has, after the whole run, an Open row that says why: its reference is matched; its payment's amount differs by exactly the fee, or otherwise; or nothing in the books answers to it |
| StatementMatcher.Matcher.Match | services/reconciliation-service/src/statements.mjs:101-236 | the two loops leave the tables and counters of the specification |
| StatementMatcher.Matcher.ProcessLine | services/reconciliation-service/src/statements.mjs:168-216 | one line, branch by branch |
| StatementIngest.RedeliveryChangesNothing | services/reconciliation-service/src/statements.mjs:36-63 | a delivered statement delivered again, after whatever else and with whatever lines, changes nothing |
| StatementIngest.IngestKeepsLines | services/reconciliation-service/src/statements.mjs:38-56 | lines already there are untouched and the new ones are pending |
| StatementIngest.TakenInExactlyWhen | services/reconciliation-service/src/statements.mjs:12-66 | exactly the well-formed statements of the tenant's providers that are not there yet go in, each line with what was sent and waiting to be matched, with one match job; otherwise nothing changes |
| StatementIngest.RefusedExactlyWhen | services/reconciliation-service/src/statements.mjs:13-34 | each refusal, exactly when |
| StatementIngest.StatementsAfterAll | services/reconciliation-service/src/statements.mjs:12-66 | after any deliveries a statement is there exactly if it was before or an acceptable one with its key was among them |
| StatementIngest.StatementStore.IngestStatement | services/reconciliation-service/src/statements.mjs:12-66 | the statement, its lines and one match job go in together, or a refusal changes nothing |
| Outbox.BackoffDoubles | services/relay-worker/src/index.mjs:111-112 | the wait starts at 500 ms and doubles up to 60 s |
| JobQueue.BackoffsAgree | packages/shared/jobs.mjs:109-110 | jobs and outbox events back off alike |
| Money.ParsingRounds | packages/shared/money.mjs:35-46 | on accepted text of any length parsing is exact rounding to cents, halves away from zero, though it looks only at the third digit |
| Money.ParsingErrorAtMostHalfACent | packages/shared/money.mjs:35-46 | the error is at most half a cent |
| Money.ParsingIsMonotone | packages/shared/money.mjs:35-46 | a larger decimal never parses to fewer cents |
| Money.PrintThenParse | packages/shared/money.mjs:60-65 | parsing a printed amount gives it back, for every integer number of cents |
| MoneyText.StrippedExactlyWhen | packages/shared/money.mjs:133 | cleaning takes out commas and the 25 white space and line end characters of ECMAScript, nothing else |
| MoneyText.CleanedInOrder | packages/shared/money.mjs:133 | the cleaned text is what is left of each character, in order |
| MoneyText.AnswersExactlyWhen | packages/shared/money.mjs:124-136 | accepted exactly if the cleaned text is an optional minus, digits, and optionally a dot with digits; refused as empty exactly for the empty text |
| Policy.TighteningNeverMilder | services/policy-service/src/evaluate.mjs:5-63 | tightening any policy field never makes the decision milder |
| PolicyDecisions.DecisionExactlyWhen | services/policy-service/src/evaluate.mjs:5-63 | Blocked, Review, Clear or no decision, each exactly when, over the fields of the request and of the policy |
| PolicyDecisions.CurrentIsLargestShare | services/policy-service/src/evaluate.mjs:95-128 | the current concentration is the largest share of the total worth that any asset held has |
| PolicyDecisions.ProjectedIsLargestShare | services/policy-service/src/evaluate.mjs:104-128 | the projected one is the largest share after the amount and fee have gone out, none of the paid asset below zero |
| Policy.NotBlockedMeansEnoughRequired | services/policy-service/src/evaluate.mjs:41-45 | a payment that is not blocked requires at least the approvals the rules demand |
| Policy.ConcentrationTheorem | services/policy-service/src/evaluate.mjs:95-128 | for a covered outflow the paid asset's share never rises, shares stay in [0,1], and a rising maximum is another asset's |
| Policy.ProjectedIsAShareExactlyWhen | services/policy-service/src/evaluate.mjs:113-118 | the projected value is at most one exactly when the outflow is covered, or nothing is left, or no other asset outweighs what is left |
| Policy.UncoveredOutflowExceedsOne | services/policy-service/src/evaluate.mjs:113-128 | a book and an uncovered outflow with a projected share of two |
| Policy.UnblockedPaymentsAreCovered | services/policy-service/src/evaluate.mjs:28-32 | the balance check guards the theorem |
| Policy.FillSums | services/policy-service/src/evaluate.mjs:105-109 | each asset of the book holds the worth of exactly its wallets |
| Policy.FillLoop | services/policy-service/src/evaluate.mjs:105-109 | the loop fills that book |
| Policy.MaxShareLoop | services/policy-service/src/evaluate.mjs:121-128 | the loop finds the largest share |
| Policy.RequiredApprovalsFor | packages/shared/policy-math.mjs:19-23 | two approvals exactly from the second threshold on, none exactly below both, never more than two |

## Left out

- HTTP, routing, sessions, authentication, CSRF, rate limits, metrics, the web interface and deployment files: input and output, or easy members.
- Postgres itself: atomic transactions, row and advisory locks, unique constraints, SKIP LOCKED, and statements seeing committed data plus their own writes are taken as given. Row-level security is a tenant key.
- SHA-256 and JSON.stringify: the digest is any collision-free function whose output is never empty and holds no separator (`AuditChain.DigestsExist`); the request hash is its input in canonical form, with numbers and strings as atoms (so -0 and 0 are not identified, nor a number beyond the double range, which is printed as `null`, with `null`).
- Unicode: a string is a list of characters, each standing for one code unit; Postgres collation and JavaScript code-unit order coincide with the order used.
- Floating point: `toNumber`, `times`, `fromNumber`, `estimateFee`, and the rounding at services/policy-service/src/evaluate.mjs:104 and 115. Cents or exact rationals are used, and the fee is any non-negative amount fixed at creation.
- Money.ParseMoneyInput: takes text only; the number branch goes through floating point, and a `Money` value is returned as it is.
- Execution-attempt rows, which only log; the circuit breaker, which only adds submission errors; the outbox write after settlement and the opt-in simulated statement, which follow the settlement update.
- The simulated adapter's map is per process; it is taken to survive, as a provider's own store would. Adapter keys are resolved anew on each call.
- The choice of a run's destination wallet by address among the wallets of its context (services/job-worker/src/handlers/payment-saga.mjs:102-107): a context names the destination, and the ledger checks it anew.
- Journal ids and dates, ledger descriptions, and the names and issue texts of rows opened elsewhere.
- Policy.UnblockedPaymentsAreCovered: asks that the source wallet is among the listed wallets and holds the payment's asset, as the payment context supplies them.
- Demo reset and seeding, except opening-balance postings; the 48-hour sweep of completed idempotency keys; the watchdog; webhook ingress.
- Outbox rows are ordered by commit: a row committed late under an earlier created_at would count among the older ones.
- RELAY_MAX_RETRIES that is not a number.
- The order in which a statement's lines are listed: any worklist of its undecided lines is allowed; the summary's breakdown by category.
- In `StatementRuns` matcher runs overlap between their reading of lines and their transaction, and the transactions follow one another; in `StatementTransactions`, where their statements are interleaved, only lines and Matched rows are kept, not the rows of exceptions.
- Rows opened elsewhere: carry issue texts other than the matcher's, as the callers in the repository send them.
- StatementMatcher.RunMatchesInjectively: speaks of one run; heuristic matches are forgotten between runs, and an exact match compares reference and amount only.
- The migration's loop is given its rows in the order of its SELECT; by `AuditAppend.AcceptedInAnyOrder` its result is accepted wherever the rows lie.
