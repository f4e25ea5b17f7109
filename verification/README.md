# Payment backend: a verified model of the money path

The backend takes payments through Stripe and Cashfree. A gateway event is stored, queued and run by a
retrying worker; the worker drives the payment state machine and appends to an append-only ledger; refunds
move the same payment and the same ledger from the other side; an idempotency gate guards payment creation;
a reconciliation pass compares the result with the gateway. Every part keeps state, and every part can be
replayed or cut off between two writes.

## How the model is built

- **Tables.** `Store.dfy` holds the rows of payments, orders, events, refunds, ledger and invoices, and the
  gateway's own record of refunds. Amounts are whole paise, except for the amounts a caller asks for, which
  are exact decimals (`Rounding.dfy`).
- **One awaited operation, one step.** `Worker.dfy`, `Refunds.dfy` and `Invoicing.dfy` give each service
  function as a program counter over its awaited operations; every operation can succeed or fail, and the
  process can die before any of them.
- **Everything at once.** `System.dfy` interleaves any number of worker runs, refund calls and invoice jobs,
  with new payments, new events, redeliveries and manual replays. `Shape`, `CreditSafety`, `CreditBacking`,
  `LifecycleSafety`, `OrderSafety`, `RefundSafety`, `GatewaySafety`, `CreditEvents` and `ProcessedEvents` each
  prove one part of an invariant for every step; `Conservation.dfy` puts them together and states the main
  theorems over all runs. `OrphanRefunds`, `Payouts`, `EventGaps`, `LostCredit` and `Refundable` use them for
  the cases in which a promise fails.
- **The services as written.** The classes `Database`, `WebhookService`, `IdempotencyRepository`,
  `PaymentService` and `AdminController` change their tables in place, as the services do. Each service
  method is proved to have exactly the effect of its step-by-step form under the same outcomes, so the
  theorems over all runs are about these methods; `Simulation.dfy` and `IngestionService.AloneIsARun` show
  that a whole call is one of those runs. `InvoiceService` keeps the invoice rows themselves, with their
  generated numbers, unique constraints and files, and its methods are proved to do to the orders invoiced
  what the step-by-step run does.
- **What the whole system takes in one step.** There a transition reads and writes the payment row in one
  operation, and refund calls on one payment come one at a time. `TransitionRace.dfy` and `RefundRace.dfy` take
  the read and the write apart and let two calls overlap in every way.
- **Parts with their own protocol.** `AppendProtocol.dfy` (ledger append), `IdempotencyGate.dfy`,
  `Ingestion.dfy`, `Saga.dfy` (payment creation) and `Reconciliation.dfy` are modelled apart, each with its
  own interleavings or sequences of calls; `Json.dfy` and `Fingerprint.dfy` treat the text of a request's
  fingerprint.

A script of outcomes stands for what the database, the gateways, the queue and the clock do. Unique
constraints, atomic single-row operations and job-id deduplication are taken from the database and the queue
as they are.

## Where the code falls short of a promise

Each line names the lemma that shows it and, where there is one, the exact condition under which the promise
does hold.

- `docs/webhook-reliability.md:5` promises that no event is lost. A queue that is down when an event arrives
  leaves it stored, acknowledged and never queued by any later delivery (`AcknowledgedAndStranded`); exactly
  when it can still be queued is `QueuedLaterExactly`. A manual replay still reaches it. And an event that is
  processed before its payment is stored is marked PROCESSED without any effect; no redelivery and no replay of
  it ever runs its credit step, and a payment that only it names stays PENDING (`EarlyEventLost`). When a
  PROCESSED success event does have its credit is `ProcessedIsCredited`.
- The Cashfree look-up at `src/workers/webhook.worker.js:118-126` does not ask for the payment's gateway, and the
  reference of a credit carries the payment's. So two success events of different gateways with one identifier
  can confirm one payment and leave one credit (`OneCreditForTwoEvents`). A payment's credits are its amount
  times its success events exactly when no two of them share a reference and none was first credited to another
  payment (`CreditConservation`); with identifiers of their own they share one exactly when the identifiers are
  equal (`SharedExactly`).
- `docs/transaction-ledger.md:65-72` says refunds are checked against the ledger balance. The code checks the
  SUCCEEDED refunds; the two agree exactly when the payment has one credit (`RemainingAgrees`). A worker
  that dies before its credit, followed by a refund, leaves a ledger that shows money going out and never
  coming in, for good (`MoneyOutNeverIn`, `CreditLostForGood`).
- `docs/idempotency.md:78` promises one payment per key under any concurrency. That holds until the first
  failed answer or the expiry (`OnePassUntilFailure`), and beyond failures as long as every reset lands on a
  row that is still FAILED (`OneSuccessWhileResetsLand`), so whenever nobody is interrupted inside the gate
  (`OneSuccessWhenSerial`). Two or more retries of a failed key pass exactly when some reset does not
  (`RetriesExactly`, `RacedRetriesExactly`, `TwoSuccessesWhenInterleaved`), a replay can then
  answer a different request (`ReplayOfAnotherRequest`), and an expired key never closes again
  (`ExpiredStaysOpen`).
- `docs/idempotency.md:82-95` says the whole body is fingerprinted. The sorted top-level keys act as a filter
  at every level; a body's text is its own exactly when nothing below the top level is an object, out of a
  number's range, or null (`TextDeterminesExactly`). The metadata of a payment request is such an object.
- A transition writes payment and order in two operations. A run cut off between them is repeated, but the
  repeat finds the payment in its target status and leaves the order as it was: the orders come out as
  intended if and only if no run was torn there (`ExactlyOnceEffect`).
- Transitions are read and written without a lock. Any number of them leaves a permitted history as long as each
  write lands on the status its caller read (`LegalWhileUndisturbed`); two of them leave an illegal one exactly
  when both read before either wrote and the statuses written do not follow each other
  (`TwoTransitionsExactly`).
- Refund calls on one payment are not serialised either. Two of them refund more than the payment in the table
  exactly when both save a SUCCEEDED row, each having read the total before the other's row was there, and the
  amounts exceed what was left (`OverRefundExactly`; `OverRefundHappens` for every amount). The gateway still
  pays no more than the payment: one of the rows then states more than was paid (`OverRefundIsUnpaid`).
- The guard counts SUCCEEDED refunds only. While a part is PENDING, or the gateway has a refund without a row, a
  request without an amount is sent without one, the gateway pays the rest, and the row states the whole payment
  (`RowStatesMore`). Row and payout agree exactly when nothing is PENDING and no refund is without its row, or
  an amount was sent (`PayoutAgreesExactly`).
- A refund cut off between the gateway and its row, by a death, a failed insert or one collision too many
  (`CutOffAbandons`, `EndsWithoutRowExactly`), is meant to be repeated under the same key. But every call
  draws a new refund number and sends it as metadata, so the repeated request is another one and the gateway
  refuses it: over all runs the row is saved if and only if the same number is drawn again
  (`SavedOnlyWithItsNumber`).
- For the same reason a second refund of the same amount for the same reason is refused by the gateway and can
  never be made without a key of its own (`SecondEqualRefundRefused`).
- An invoice whose file could not be made keeps its row, and the worker at `src/workers/invoice.worker.js:20-27`
  stops at the row: the queue never completes it (`InvoiceService.ProcessInvoiceJob`), only a direct call does.
- For Cashfree the identifier kept as the payment's is the payment session, which Cashfree's order endpoints
  do not know. So a compensation never cancels a Cashfree order (`CashfreeNeverCancelled`,
  `CompensationWorksExactly`), a reconciliation query never finds one (`QueriesFindExactly`), and a refund
  of a payment without a payment intent is always turned away (`WithoutIntentNeverRefunded`).
- Neither gateway's status table knows a refunded status, so every reconciliation run reports every refunded
  payment (`RefundedAlwaysReported`).
- The handlers for a duplicate insert in `src/services/webhook.service.js:44-49` and `src/services/webhook.service.js:126-134` are never
  reached, because the repository already turns the clash into the stored row; the loser of the race goes on
  and queues the event, which the job id makes harmless (`IngestionIsSound`).

## Model

| member | source | states |
|---|---|---|
| StateMachine.HistoryIsShort | src/services/paymentStateMachine.js:10-28 | every real status change raises a rank, so a payment changes status at most three times, a settled payment stays settled and nothing follows a terminal status |
| StateMachine.ReachableExactly | src/services/paymentStateMachine.js:10-28 | which statuses can follow which over any number of transitions, in both directions |
| TransitionRace.LegalWhileUndisturbed | src/services/paymentStateMachine.js:54-81 | any number of transitions, the read and the write of each a step of its own, in every interleaving with failures anywhere: the payment's statuses form a permitted history as long as each write lands on the status its caller read |
| TransitionRace.TwoTransitionsExactly | src/services/paymentStateMachine.js:54-81 | two transitions in every interleaving leave an illegal history exactly when both read before either wrote, both wrote, and it is two different ends of a fresh payment or a partial refund over a full one |
| Databases.Database.Transition | src/services/paymentStateMachine.js:50-107 | the method's new payment and order rows, unused outcomes and ending are those of the two-write transition, for every script of outcomes |
| Ledger.RefTextInjective | src/services/ledger.service.js:19 | the reference text is shared by no two of (gateway, identifier, kind), even if an identifier contains colons |
| Ledger.GetPaymentBalance | src/services/ledger.service.js:146-170 | the loop's credits, debits and remaining balance are the sums over the payment's rows in the whole ledger, and the entries returned are exactly those rows |
| Ledger.EntriesKeepSums | src/repositories/ledger.repository.js:51-57 | a payment's own rows have the same sums as the whole ledger has for it |
| AppendProtocol.OneEntryPerReference | src/repositories/ledger.repository.js:14-34 | with any number of callers interleaved between look-up and insert: one entry per reference, all returning callers of a reference get it, stored entries never change or vanish |
| AppendProtocol.OwnStepProgresses | src/repositories/ledger.repository.js:14-34 | a caller's own successful operation brings it nearer to returning and it never gives up |
| AppendProtocol.ReturnsInThreeSteps | src/services/ledger.service.js:21-53 | a caller whose operations succeed returns after three of them whatever the others do in between |
| Databases.Database.CreateEntry | src/repositories/ledger.repository.js:14-34 | the insert with its fallback: appends the entry unless its reference is taken, and then returns the stored one; nothing when it throws |
| Databases.Database.RecordEntry | src/services/ledger.service.js:21-53 | look-up, insert and fallback read leave exactly the ledger of the specified append under the same outcomes |
| Databases.Database.RecordPaymentCredit | src/services/ledger.service.js:16-64 | appends the credit under its reference once, nothing when the ledger is disabled |
| Databases.Database.RecordRefundDebit | src/services/ledger.service.js:69-115 | appends the debit of the refund under its reference once, nothing when the ledger is disabled |
| Databases.Database.HandleEvent | src/workers/webhook.worker.js:60-158 | the try block as written, from finding the payment on, does what the step-by-step run does under the same outcomes, whether it returns, throws or dies |
| Databases.Database.RecordFailure | src/workers/webhook.worker.js:179-207 | the catch block as written stores RETRYING or DEAD_LETTER and the delay to the next attempt, or none, as the step-by-step run does |
| Databases.Database.ProcessWebhookJob | src/workers/webhook.worker.js:18-208 | the whole job as written leaves exactly the tables and the result of the step-by-step run, for every script of outcomes and every death |
| ExactlyOnce.ExactlyOnceEffect | src/workers/webhook.worker.js:18-208 | after any number of deliveries, each thrown or cut off anywhere, a PROCESSED event has had its intended effect exactly once; the orders too if and only if no run was torn inside a transition |
| ExactlyOnce.AtMostOnceEffect | src/workers/webhook.worker.js:60-169 | before that, payments, ledger and orders are each as at the start or as intended, never anything else |
| ExactlyOnce.CleanDeliveryRecovers | src/workers/webhook.worker.js:42-178 | one delivery in which every operation succeeds brings the event to PROCESSED exactly when the state machine permits what it asks for or it was PROCESSED already |
| ExactlyOnce.RefusedForever | src/workers/webhook.worker.js:74-112 | an event the state machine refuses is never PROCESSED and touches no payment, order or ledger entry, over any number of deliveries |
| Retry.RunExactly | src/workers/webhook.worker.js:18-208 | every run ends PROCESSED exactly when it completed, counts one attempt exactly when it was marked, and after a throw leaves the recorded failure and delay if it was recorded, PROCESSING if the run was only marked, and what there was if neither |
| Retry.RunSummary | src/workers/webhook.worker.js:50-58 | with its bookkeeping intact a run counts exactly one attempt and records a throw as RETRYING or DEAD_LETTER with the delay |
| Retry.RetryRun | src/queues/webhook.queue.js:5-11 | a queued event is executed at most the configured number of times and ends PROCESSED exactly when some attempt did not throw, DEAD_LETTER exactly when all threw and the last one recorded its failure, with exactly the attempts counted whose marking succeeded |
| Retry.ReplaysCounted | src/controllers/admin.controller.js:136-147 | with manual replays mixed in, the stored attempts are those before plus one for each run up to and including the first that completes, PROCESSED is reached exactly when one does and is never left, and a dead letter replayed by hand is never put back to RETRYING |
| Retry.CountedExactly | src/workers/webhook.worker.js:42-58 | that number said of the launches: nobody before the last one counted completes the event, and it does or is the last of all |
| Backoff.DelayDoubles | src/workers/webhook.worker.js:180-184 | each delay is double the previous one or the cap of 1,800,000 ms, never less than the one before |
| Retry.RecordedDelays | src/workers/webhook.worker.js:180-203 | over a whole series of attempts the event row records one delay after each thrown attempt, each double the one before up to the cap, none exactly after the last attempt of a dead letter, all together within the geometric sum and within the capped one |
| Admin.AdminController.ReprocessWebhook | src/controllers/admin.controller.js:108-159 | finds a named event or answers not found, writes the audit row of its old state, and has the effect of a run with the stored attempts |
| Conservation.CreditConservation | src/services/ledger.service.js:16-64 | over every interleaving with crashes, redeliveries and replays: a payment's credits add up to its amount times the number of distinct success events whose credit step has run for it, exactly when no two of them share a reference and none of the references was first credited to another payment, and to less otherwise |
| CreditEvents.CreditsPerEvent | src/services/ledger.service.js:19 | the count behind it: no more references credited than events confirmed, and as many exactly under those two conditions |
| Conservation.ProcessedIsCredited | src/workers/webhook.worker.js:74-169 | over every interleaving, a PROCESSED success event has the credit under its own reference in the ledger exactly when its credit step has run, or that of an event it shares the reference with; and its own has run whenever none of its look-ups came up empty |
| EventGaps.EarlyEventLost | src/workers/webhook.worker.js:69-74 | from every reachable state: an event that arrives and is processed before any payment of its own is stored is PROCESSED, and whatever follows never runs its credit step; a payment created later that no other event names stays PENDING without any entry |
| EventGaps.OneCreditForTwoEvents | src/workers/webhook.worker.js:118-138 | for every amount and identifier a run in which two success events of one payment, of different gateways, are PROCESSED and leave one credit |
| Conservation.LedgerIsSound | src/workers/webhook.worker.js:74-138 | references are unique, entries never change or move, and every credit carries its payment's amount and is backed by a stored event that asks for that payment's confirmation |
| Conservation.ApplyGrows | src/repositories/ledger.repository.js:14-34 | no action removes a row or changes anything of a stored payment but its status, or of a stored event but its status, attempts and retry delay |
| Conservation.LifecycleHolds | src/services/paymentStateMachine.js:10-107 | a payment with a ledger entry, a refund or an invoice is neither PENDING nor FAILED, an invoice with its file has its row, and no payment changes status more than three times, with everything interleaved |
| Conservation.OrderFollowsPayment | src/services/paymentStateMachine.js:63-96 | an order shows the image of a status its payment has had, and of the present one unless a transition's two writes were separated or the second is to come |
| Conservation.RefundConservation | src/services/refund.service.js:66-381 | debits within SUCCEEDED refunds within the payment amount; REFUNDED means all of it; the gateway never sets aside more than the payment, and at least what the rows state if each of its records is for that; with failures and crashes anywhere |
| Conservation.RefundsExactly | src/services/refund.service.js:367-381 | with no call cut off or in progress debits equal the SUCCEEDED refunds, and with whole-paise amounts the status says exactly nothing, part or all refunded |
| Conservation.RefundTransitionNeverRefused | src/services/refund.service.js:371-373 | a refund call that reaches its transition is never refused there, even after cut-off calls |
| Conservation.RemainingAgrees | src/services/ledger.service.js:146-170 | the ledger's remaining balance and the refund guard's differ by one amount per missing or extra credit, so agree if and only if there is one |
| Conservation.CreditLostForGood | src/workers/webhook.worker.js:74-85 | once a payment is refunded with no worker past its transition, no run of the whole system ever adds a credit to it |
| LostCredit.MoneyOutNeverIn | src/services/refund.service.js:165-190 | for every amount there is a run after which, whatever follows, the ledger shows the amount going out and nothing coming in |
| Rounding.RefundRounding | src/services/refund.service.js:244-249 | the half-up paise of a request within the balance never exceed it and are what an amount sent and the row both state; the amount is left out exactly when the whole payment is asked for, and then nothing has SUCCEEDED before |
| Rounding.RoundingEdges | src/services/refund.service.js:173-190 | exactly which requests round to nothing and which round up to the whole balance |
| Refunds.Guard | src/services/refund.service.js:165-190 | a refund is let through exactly when something remains and the amount asked for is positive and within it; the amount decided is the one asked for, or all that remains when none is |
| Databases.Database.SaveRefund | src/services/refund.service.js:290-365 | the bounded loop and what follows it leave exactly the tables and the result of the step-by-step call |
| Databases.Database.SettleRefund | src/services/refund.service.js:367-381 | the transition and the debit likewise |
| Databases.Database.CreateRefund | src/services/refund.service.js:86-389 | the whole call as written leaves exactly the tables and the result of the step-by-step call, for every script of outcomes and every death |
| GatewaySafety.AnswerKeeps | src/services/refund.service.js:228-262 | an accepted request has its record, keys and identifiers of records stay distinct, and the gateway never sets aside more than the payment |
| GatewaySafety.RowsWithinGateway | src/services/refund.service.js:259-303 | rows with different gateway identifiers, each backed by a record for the amount it states, add up to no more than the gateway set aside |
| Payouts.PayoutAgreesExactly | src/services/refund.service.js:74-249 | in every run, when the gateway accepts a new refund it sets aside no more than the row will state, and the same exactly when an amount is sent, or no refund of the payment is PENDING and the gateway has none without its row |
| Payouts.RowStatesMore | src/services/refund.service.js:74-249 | for every payment and part a run in which a SUCCEEDED row states the whole payment and the gateway has paid the rest beside a PENDING part |
| RefundRecovery.RepeatPaysNothingMore | src/services/refund.service.js:228-262 | a call with a key the gateway knows adds nothing to what the gateway was told to pay, wherever it ends |
| RefundRecovery.RepeatSavesExactly | src/services/refund.service.js:228-242 | a call let through under the key of a refund without a row can save that row exactly when it is the same request: amount, reason and drawn number |
| OrphanRefunds.CutOffAbandons | src/services/refund.service.js:259-365 | a call that ends between the gateway's refund and its row, by its death, a failed insert or one collision too many, leaves a refund no row and no call stands for |
| OrphanRefunds.SavedOnlyWithItsNumber | src/services/refund.service.js:233-242 | over all runs, with the numbers the later calls may draw: some run saves the row of such a refund if and only if the number drawn for it is among them |
| RefundRecovery.SecondEqualRefundRefused | src/services/refund.service.js:228-242 | under a key the gateway knows from another request, or whose refund has its row, no outcome of any operation lets the refund through |
| Refundable.WithoutIntentNeverRefunded | src/services/refund.service.js:134-136 | a payment stored without a payment intent has no refund, debit or refunded status in any run |
| RefundRace.OverRefundExactly | src/services/refund.service.js:157-303 | two calls on one payment from their first operation, in every interleaving, with every outcome, death and interference of others: more than the payment is refunded in the table exactly when both saved a SUCCEEDED row, each read the total before the other's row was there, and the amounts exceed what was left |
| RefundRace.OverRefundIsUnpaid | src/services/refund.service.js:157-303 | from every reachable state the gateway sets aside no more than the payment however two calls overlap, so an excess in the table is a refund sent without an amount and paid short |
| RefundRace.OverRefundHappens | src/services/refund.service.js:157-303 | for every payment and part, the part and the whole payment, overlapped from a reachable state, are both refunded in the table |
| Simulation.JobIsARun | src/workers/webhook.worker.js:18-208 | a whole job run is a run of the interleaved system that touches no other actor |
| Simulation.CallIsARun | src/services/refund.service.js:86-389 | a whole refund call likewise |
| Simulation.InvoiceIsARun | src/workers/invoice.worker.js:9-47 | a whole invoice job likewise |
| Databases.Database.CreateInvoice | src/services/invoice.service.js:224-328 | the method as written, its bounded loop and the making of the file included, leaves exactly the invoices, the files and the result of the step-by-step run |
| Databases.Database.PublishInvoice | src/services/invoice.service.js:109-190 | the file and its address: written into the row only if both operations succeed |
| Databases.Database.ProcessInvoiceJob | src/workers/invoice.worker.js:9-47 | the queue's route likewise |
| InvoiceServices.InvoiceService.CreateInvoiceRecord | src/services/invoice.service.js:49-102 | inserts one row exactly when one of three tries meets free numbers after collisions only, keeps the three unique constraints, and does what the step-by-step run does |
| InvoiceServices.InvoiceService.GenerateAndUpdatePdf | src/services/invoice.service.js:109-190 | gives the row its file exactly when both operations succeed |
| InvoiceServices.InvoiceService.CreateInvoice | src/services/invoice.service.js:224-328 | on the rows with their numbers: the orders invoiced, the files and the answer are those of the step-by-step run, and no row is removed or changed but for its file |
| InvoiceServices.InvoiceService.ProcessInvoiceJob | src/workers/invoice.worker.js:9-47 | the queue's route likewise; an order with a row is left as it is, with or without its file |
| Ingestion.IngestionIsSound | src/services/webhook.service.js:20-166 | for every interleaving through both entry points: one row per event, a delivery whose own database calls succeed is acknowledged with its event stored, one job per id, and every job names its event's row |
| Ingestion.JobIdInjective | src/queues/webhook.queue.js:17 | different events never share a job id |
| Ingestion.QueuedLaterExactly | src/services/webhook.service.js:25-65 | a stored event without a job can still be queued exactly when a delivery of it is past its look-up |
| Ingestion.AcknowledgedAndStranded | src/queues/webhook.queue.js:19-57 | one delivery with the queue down stores and acknowledges an event that no later delivery ever queues |
| IngestionService.WebhookService.Create | src/repositories/webhook.repository.js:4-15 | inserts the row, or on a clash returns the stored one |
| IngestionService.WebhookService.AddWebhookJob | src/queues/webhook.queue.js:16-58 | adds the job unless its id is queued, and changes nothing when the queue fails |
| IngestionService.WebhookService.HandleGatewayWebhook | src/services/webhook.service.js:20-71 | the delivery as written has the effect and the reply of its step-by-step form |
| IngestionService.WebhookService.HandleStripeWebhook | src/services/webhook.service.js:79-166 | likewise for the Stripe entry point |
| IngestionService.AloneIsARun | src/services/webhook.service.js:20-71 | a whole delivery is a run of the interleaved system of at most four of its own steps |
| IdempotencyGate.OnePassUntilFailure | src/middlewares/idempotency.middleware.js:60-119 | requests interleaved at every repository call: until the first failed answer or the expiry the handler is let through at most once, and every replay gives its answer to an equal fingerprint |
| IdempotencyGate.OneSuccessWhileResetsLand | src/middlewares/idempotency.middleware.js:60-154 | requests interleaved at every repository call, before the expiry, over failures, lost writes and crashes: as long as every reset lands on a row that is still FAILED, one handler in flight, one success ever, and every replay gives it to an equal fingerprint |
| IdempotencyGate.OneSuccessWhenSerial | src/middlewares/idempotency.middleware.js:68-154 | so with each pass one step, before the expiry: one handler in flight, one success ever, every replay gives it to an equal fingerprint |
| IdempotencyGate.RecordIsFinal | src/repositories/idempotency.repository.js:50-60 | a recorded success is final until it expires in every interleaving: nobody passes, an equal request is given it, a different one is refused |
| IdempotencyGate.RetriesExactly | src/middlewares/idempotency.middleware.js:60-119 | any number of retries of a failed key, in every interleaving of their calls with failures and deaths, before an answer and the expiry: two or more are let through exactly when some reset lands on a row no longer FAILED, and the fingerprint kept is that of the last one |
| IdempotencyGate.TwoSuccessesWhenInterleaved | src/middlewares/idempotency.middleware.js:115-156 | for any two requests and successful answers there is a run before the expiry in which both are answered |
| IdempotencyGate.ReplayOfAnotherRequest | src/middlewares/idempotency.middleware.js:91-100 | after such a race a request can be given the answer to a different one |
| IdempotencyGate.ExpiredStaysOpen | src/repositories/idempotency.repository.js:71-81 | the reset does not renew the expiry, so an expired key lets every request through for good |
| IdempotencyGate.PassIsGates | src/middlewares/idempotency.middleware.js:60-119 | an undisturbed pass is up to three of the interleaved steps |
| Text.TrimExactly | src/middlewares/idempotency.middleware.js:34 | the trimmed key is the given one without blanks at either end |
| IdempotencyService.IdempotencyRepository.Reserve | src/repositories/idempotency.repository.js:10-37 | inserts a PROCESSING row or returns the one that is there |
| IdempotencyService.IdempotencyRepository.ResetForRetry | src/repositories/idempotency.repository.js:71-81 | puts the row back to PROCESSING with the new fingerprint and no response, keeping its expiry |
| IdempotencyService.IdempotencyRepository.Admit | src/middlewares/idempotency.middleware.js:20-119 | the middleware as written admits, replays or refuses and changes the one row of its user and key as an undisturbed pass does |
| IdempotencyService.IdempotencyRepository.Finish | src/middlewares/idempotency.middleware.js:121-154 | a success is recorded with its response, anything else as FAILED, under its own key only, and nothing if the write is lost |
| Json.PrintsApart | src/middlewares/idempotency.middleware.js:10 | a printed JSON value can be read off the front of any text, as in RFC 8259 sections 4 and 7 |
| Json.PrintInjective | src/middlewares/idempotency.middleware.js:10 | different values print differently |
| Fingerprint.TextsExactly | src/middlewares/idempotency.middleware.js:9-12 | two bodies have the same text exactly when their top-level keys are the same and their values agree after the key list has filtered them at every level |
| Fingerprint.FlatTextsExactly | src/middlewares/idempotency.middleware.js:9-12 | for flat bodies: the same text for every order of the keys, different texts for different bodies |
| Fingerprint.OrderIrrelevant | src/middlewares/idempotency.middleware.js:10 | for all bodies, the order of members never matters, at any level |
| Fingerprint.TextDeterminesExactly | src/middlewares/idempotency.middleware.js:9-12 | a body's text is shared by no other body exactly when nothing in it is a nested object, an out-of-range number or null |
| Fingerprint.NestedValueIgnored | src/middlewares/idempotency.middleware.js:10 | the value under a nested key that is not a top-level key never reaches the fingerprint |
| Saga.EveryPaymentAccountedFor | src/services/payment.service.js:103-196 | over any sequence of calls with failures and deaths anywhere: orders and payments come in pairs, each for one gateway payment of equal amount, currency and user; a live gateway payment has its pair, or its cancellation was sent and did not succeed, or its call was cut off; none is cancelled unasked |
| Saga.CompensationWorksExactly | src/services/payment.service.js:176-180 | a compensation that is carried out cancels its payment exactly when the identifier it sends is the one the gateway knows |
| Saga.CashfreeNeverCancelled | src/integrations/payment/cashfree/cashfree.mapper.js:35-50 | with sessions in Cashfree's answers no sequence of calls ever cancels a Cashfree order |
| Saga.RefusalsInvisible | src/services/payment.service.js:31-79 | any sequence of calls does to the gateways and the tables what it does with the calls the checks refuse left out |
| PaymentServices.PaymentService.SaveBoth | src/services/payment.service.js:131-161 | both rows are inserted or neither, exactly when the constraints hold and the transaction commits |
| PaymentServices.PaymentService.CompensatePayment | src/services/payment.service.js:162-196 | the catch block has the result and effect of the specified compensation |
| PaymentServices.PaymentService.CreatePayment | src/services/payment.service.js:22-220 | the call as written, step by step and with its compensation, has the result and effect of the specified call |
| Reconciliation.RunReconciliation | src/services/reconciliation.service.js:26-142 | the loop checks every payment in order, matches and mismatches add up, the report is the records inserted, and it ends early exactly at an uncaught insert failure |
| Reconciliation.OneOutcomeEach | src/services/reconciliation.service.js:30-126 | records are in payment order, each says what was found about its payment, and a payment has none exactly when it was matched |
| Reconciliation.MatchedExactly | src/services/reconciliation.service.js:54-68 | matched exactly when a reference exists, the query succeeded and status, amount and currency agree; whole paise agree only if equal |
| Reconciliation.LabelExactly | src/services/reconciliation.service.js:69-124 | the label follows amount, then currency, then status; a failed query or insert is a case for review |
| Reconciliation.RefundedAlwaysReported | src/integrations/payment/stripe/stripe.mapper.js:7-19 | no run ever matches a refunded payment, because neither mapper returns a refunded status |
| Reconciliation.QueriesFindExactly | src/services/reconciliation.service.js:32 | the reference a query is made with is known to the gateway exactly for Stripe payments |

## Left out

- HTTP routing, request validation schemas, authentication, ownership and roles: one flag says whether the caller may access the payment of a refund.
- Network calls to Stripe and Cashfree, and signature checks: each call is an outcome, plus the gateway's own record; the gateway's idempotency records never expire here, and a refund keeps the status the gateway first answered.
- Mail, notification and the adding of invoice and notification jobs: they never throw into the worker and write none of the tables modelled. What is in a PDF.
- `confirmPayment`, `markPaymentFailed`, `cancelPayment` and the event handlers at src/services/webhook.service.js:174-463: no route or worker reaches them, and they bypass the state machine.
- `recordAdjustment` at src/services/ledger.service.js:120-141: it has no caller, and its reference depends on the clock.
- Prisma, PostgreSQL and BullMQ internals, and liveness of the queue: an attempt is taken to be made, not proved to be.
- Binary floating point: amounts and comparisons are exact decimals and integers.
- Currency, user, description and metadata columns of the ledger; failure reasons and messages, times of failure and of attempts (the delay to the next attempt is kept), and generated numbers other than as strings that may collide.
- How a payload is taken apart: an event carries the reference and status the worker reads in it, and the gateway and event type of its own row where the worker reads the job's copy.
- The order in which a query without an ordering returns rows: any matching row may come first.
- Conservation.CreditConservation: the read and the write of a payment's status inside `transition` are one operation, and refund calls on one payment are taken one at a time; what two of them do when they overlap is `TransitionRace.TwoTransitionsExactly` and `RefundRace.OverRefundExactly`.
- RefundRace.OverRefundExactly: of two overlapping calls; others may do anything meanwhile but refund this payment.
- TransitionRace.TwoTransitionsExactly: on the payment row and its order alone, without the calls around the transitions.
- Databases.Database.RecordFailure: the time of the failure and the error message are not columns of the model's event row.
- ExactlyOnce.ExactlyOnceEffect: the event's payment is not touched by anybody else meanwhile, its reference matches at most one payment, and the orders start as their payments' images.
- InvoiceServices.InvoiceService.CreateInvoice: its process does not die; deaths are in `Databases.Database.CreateInvoice` and in the runs of the system.
- Retry.RetryRun: the process does not die during the series; with deaths, the queue's own stalled-job handling decides how often the job runs.
- Admin.AdminController.ReprocessWebhook: the identifier is looked up among events in table order, where the query may return any match.
- The derived refund key is its three parts, not their text; a reason arrives trimmed and in lower case.
- Letter case is changed for ASCII letters only; a gateway status that names a member every JavaScript object has is taken as unknown.
- Fingerprints of bodies that are arrays, which the schema refuses later, and hashing itself; keys are ordered by code point where JavaScript orders by UTF-16 unit, which no result depends on.
- An amount below 0.000001 is printed with an exponent and passes the decimals check; the money-path theorems take stored amounts as positive.
- Creation of a Stripe customer before the payment, which is caught and changes no table modelled.
- The paging, listing and administrative resolution parts of reconciliation, and the time window its payments come from.
