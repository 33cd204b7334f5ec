# Payment orchestration, webhook delivery and the provider circuit breaker

A Dafny model of three connected parts of the payment API, with proofs about every run of them.

- **Orchestration.** Calls to create a payment, to reconcile it and to process a provider
  notification, interleaved step by step over a shared store. A payment picks a provider,
  falls back to the next one on a safe failure, stops on an unknown outcome, is reconciled,
  is presented, and is marked paid together with its outbox events.
- **Merchant webhook delivery.** Any number of workers materialize deliveries from the
  outbox, claim them under an expiring lease, send, and record the attempt, with bounded
  exponential backoff; merchants set, rotate and disable endpoints meanwhile.
- **Routing telemetry.** Health snapshots, their score, and the circuit breaker, composed
  with provider selection.

Each part has the same shape: values and the effect of each repository call
(`PaymentDb`, `DeliveryDb`, `Circuit`); a state machine with one step per repository or
outside call, in which a thread keeps private copies of rows and may stop anywhere
(`PaymentMachine`, `DeliveryMachine`), or for the circuit breaker one action per routing
call, whose refresh may fail after any of its statements (`CircuitRuns`); an invariant and its proof
(`PaymentInvariant`, `PaymentSteps`, `PaymentSafety`, `DeliveryInvariant`, `DeliverySafety`);
theorems over runs (`PaymentTheorems`, `PaymentFallback`, `PaymentWebhooks`, `PaymentOverlap`,
`DeliveryTheorems`, `CircuitTheorems`); what each call leaves behind in every run, with the
stored rows and the answers written out column by column and attempts counted one by one, so
that it can be read without the definitions of the machine's steps (`PaymentDispatch`,
`PaymentOutcomes`, `PaymentNotices`, `DeliveryRecords`, `DeliveryOutcomes`, `CircuitCounts`); and the code in its own imperative form, classes
whose methods update the tables in place (`PaymentStore`, `PaymentService`,
`DeliveryStore`, `DeliveryService`, `Telemetry`, `Router.Select`, `Retry.RetryDelay`).

What connectors, senders, ciphers, telemetry, clocks and identifier generators answer is an
arbitrary sequence of answers that the imperative code takes one after another
(`Outside.Oracle`). The contract of a service method says that the call goes through the
steps of one thread of the machine, in the order of the code and to the end of the call
(`PaymentTrace.Follows`, `DeliveryTrace.Follows`): every step is the one that belongs to the
place where the thread stands, lookups tell the truth, nothing is given up, and every answer
is the one that the outside gave. That determines the call, up to which of several matching
rows a lookup finds (`CallIsDetermined`).
`PaymentCalls` and `DeliveryCalls` then prove that such a call, begun at the end of any run
and not interrupted by other calls, makes a longer run as long as the outside keeps the
assumptions below, so every theorem about runs holds after it. That calls of the imperative
code may interleave is captured by the machine alone.

`dafny verify dfyconfig.toml` checks the whole project.

## Assumptions

- A `ReconcilePayment` does not read its payment as `reconciling` while another one is
  between that reading and its first save of the payment (`Undisturbed`). Nothing in the code
  enforces this, and `OverlappingReconcilersDoubleCharge` shows that it is needed; outside
  that window any number of reconcilers may overlap. `ReconcilePayment` is given the payment's
  own environment (`Allowed`).
- A connector that answers `failed_safe` or `not_created` is right: there is no charge and
  there will be none. Every other outcome may leave one, at any time after the request.
- Identifiers are fresh. Connection identifiers are globally unique; connections keep their
  workspace and environment. Where a lemma needs provider payment identifiers to be unique
  per connection it says so (`UniqueCharge`).
- The request fingerprint is injective, so the canonical request stands for its hash.
- `SetEndpoint` reads and writes the endpoint in one step, at any time after it has read the
  clock. `OffEventIsCandidate` says exactly what a stale clock reading does, and
  `SplitSetEndpointRevives` what a disable between the two calls would do.
- All delivery workers share `maxAttempts`, have distinct non-empty identifiers, and make one
  `RunOnce` call at a time. There is one clock that does not go back; the time a worker read
  may be stale when it is used.
- SQL statements and transactions are atomic. Routing calls that use the circuit breaker
  follow one another.

Where code and documentation differ the model follows the code: a routing call that finds no
eligible provider stores no decision; a delivery may go out for an event stamped while its
endpoint was off if the call that then activates the endpoint has read the clock no later
than the stamp (`EarlyReadingDelivers`).

## Model

| member | source | states |
|---|---|---|
| Router.Select | apps/api/internal/orchestration/router.go:21-105 | the loop returns a connection that may be asked and that no other such one ranks above, or none when there is none, together with one row for each connection, in the order of priority and identifier, that says whether it may be asked and, if not, which check it failed |
| Router.BetterIsStrictTotal | apps/api/internal/orchestration/router.go:107-143 | `betterCandidate` is a strict weak order, total on connections with distinct identifiers |
| Router.BetterIsRanking | apps/api/internal/orchestration/router.go:107-143 | `betterCandidate` is lexicographic by circuit rank, score descending, priority, identifier |
| Router.SelectionIsArgmin | apps/api/internal/orchestration/router.go:45-104 | the selected connection is eligible and no eligible one beats it; nothing is selected exactly when nothing is eligible |
| Router.ArgminUnique | apps/api/internal/orchestration/router.go:98-104 | with distinct identifiers there is only one such choice |
| Router.CandidatesAreTrue | apps/api/internal/orchestration/router.go:45-97 | the rows list the connections by priority and identifier with their health; one is marked eligible exactly when its connector is registered and supports the capability (if there is a catalog), it has not been attempted, is enabled, in the environment, has valid credentials and is not open; otherwise the mark names the first of these checks, in this order, that fails |
| Router.SelectionIsFirstChoice | apps/api/internal/orchestration/router.go:77-104 | nothing is selected exactly when no connection meets those conditions; otherwise one that does, such that no other that does has a better circuit, or the same and a higher score (0.5 without health), or the same and an earlier priority, or the same and a smaller identifier |
| Router.RankingIsInOrder | apps/api/internal/orchestration/router.go:98-124 | the ranking that the fallback follows lists exactly the connections that meet those conditions, in that order, each as often as it is listed |
| Router.IdLessIsLexicographic | apps/api/internal/orchestration/router.go:123 | identifiers compare by their first differing character, or by length |
| Router.SelectionIgnoresOrder | apps/api/internal/orchestration/router.go:27-104 | permuting the connections does not change the selection |
| Router.SelectionIgnoresLosers | apps/api/internal/orchestration/router.go:77-104 | excluding a connection that was not selected does not change the selection |
| Router.EvidenceIsSortedPermutation | apps/api/internal/orchestration/router.go:27-97 | the candidates are the connections, each once, sorted by priority and identifier, and the selected one is marked eligible |
| Router.VisitsFollowRanking | apps/api/internal/orchestration/service.go:156-254 | selecting, excluding the selected connection and selecting again visits exactly the first n eligible connections in rank order |
| PaymentFallback.FallbackFollowsRanking | apps/api/internal/orchestration/service.go:151-255 | whatever other threads do to the store, a routing call asks a prefix of the ranked eligible connections, and all of the first `maxAttempts - earlier attempts` when every request fails safely |
| PaymentFallback.StepAsks | apps/api/internal/orchestration/service.go:156-284 | every step of the dispatch loop asks the next due connection or nothing |
| PaymentDb.JoinKeyInjective | apps/api/internal/store/memory/store.go:56-64 | the NUL-joined idempotency key identifies the pair, for NUL-free workspaces or within one workspace |
| PaymentDb.JoinKeyCollides | apps/api/internal/store/memory/store.go:56-64 | every key of a workspace that contains a NUL is also the key of some NUL-free workspace |
| PaymentSafety.ApplySafe | apps/api/internal/orchestration/service.go:94-399 | every enabled step of any thread, every reconfiguration and every charge keeps the invariant that links the threads' stale copies to the store |
| PaymentSafety.RunSafe | apps/api/internal/orchestration/service.go:94-399 | the invariant holds in every state of every run |
| PaymentTheorems.NoDoubleCharge | apps/api/internal/orchestration/service.go:156-284 | in every reachable state at most one attempt of a payment has a live charge; every attempt but the last has failed safely and has none |
| PaymentTheorems.ChargeBelongs | apps/api/internal/orchestration/service.go:338-353 | every live charge belongs to the last attempt of exactly one payment |
| PaymentTheorems.AttemptLedger | apps/api/internal/orchestration/service.go:151-191 | attempts are numbered 1 to n with n at most `maxAttempts`, on pairwise distinct connections of the payment's workspace and environment, each with one decision that names it and an eligible candidate |
| PaymentTheorems.EnvironmentIsRequested | apps/api/internal/store/memory/scope.go:9-29 | the environment read from the connection of attempt 1 is the one of the create request, and no other |
| PaymentTheorems.PresentationAgrees | apps/api/internal/orchestration/service.go:232-246 | an attempt is presented exactly while payment is awaited or done, and then it is the last one, it succeeded, and its Pix is the payment's |
| PaymentTheorems.ExactlyOnceOutbox | apps/api/internal/orchestration/paid_events.go:16-67 | a payment is paid iff it has exactly one `payment.paid` event; it is recovered iff it was paid on a later attempt than the first, and then it has exactly one recovery and one `payment.recovered` event |
| PaymentTheorems.OutboxAgrees | apps/api/internal/orchestration/paid_events.go:70-114 | every event in a workspace's outbox is about a paid payment of that workspace, and its recovery fields are the payment's |
| PaymentTheorems.RecoveryAttribution | apps/api/internal/orchestration/paid_events.go:41-58 | a recovery names attempt 1, which failed safely, with its failure code, the presented attempt, and the full amount |
| PaymentTheorems.StatusIsLegal | apps/api/internal/orchestration/service.go:122-398 | every action moves a stored status along the status graph or not at all; paid and failed absorb |
| PaymentTheorems.StatusChangesBounded | apps/api/internal/orchestration/service.go:156-292 | a payment's status changes at most 2·maxAttempts+2 times in any run |
| PaymentTheorems.ChangesArePaidFor | apps/api/internal/orchestration/service.go:156-292 | each change lowers a rank that starts at 2·maxAttempts+2 and never goes below zero |
| PaymentTheorems.IdempotentCreate | apps/api/internal/orchestration/service.go:114-128 | all interleaved calls that succeed under one workspace and key return the same payment for the same request |
| PaymentTheorems.OneAdmission | apps/api/internal/store/postgres/store.go:34-74 | at most one call per key goes on to route, whether the insert and the second read are one step or two |
| PaymentTheorems.ConflictRejected | apps/api/internal/store/memory/store.go:57-60 | another request under a taken key is refused and the store stays as it is |
| PaymentDispatch.KeyDecides | apps/api/internal/store/memory/store.go:53-66 | in every reachable state a create under a new key stores exactly the row of its request, a repeat of the same request returns the stored payment of that workspace, key and request and changes nothing, and another request is refused and changes nothing; the second read of a lost insert answers the same |
| PaymentDispatch.AdmissionIsSaved | apps/api/internal/orchestration/service.go:118-128 | only the status of a payment just created becomes routing, and then its connections are read |
| PaymentDispatch.LoopBegins | apps/api/internal/orchestration/service.go:131-154 | in any run the dispatch loop starts with the workspace's connections as stored when the health was read, that health, the stored attempts, and exactly their connections excluded |
| PaymentDispatch.AttemptIsChosen | apps/api/internal/orchestration/service.go:156-196 | in any run, while the budget lasts and some connection may be asked, exactly one attempt on the first choice among them, numbered next, and one decision with true rows are added; otherwise, and under a stored identifier, nothing changes |
| PaymentDispatch.RoutingFails | apps/api/internal/orchestration/service.go:158-166 | in any run a routing call without budget or without such a connection stores the payment as failed with the code of the one or the other, and only the latter returns an error |
| PaymentDispatch.ActiveIsSaved | apps/api/internal/orchestration/service.go:192-196 | only the active attempt of the payment changes, to the one just added |
| PaymentDispatch.AdapterDecides | apps/api/internal/orchestration/service.go:198-216 | with an adapter the attempt is stored as requesting before the request goes out; without one as terminally failed, unless that save fails |
| PaymentDispatch.NoAdapterFails | apps/api/internal/orchestration/service.go:204-208 | without an adapter only the payment then changes, to failed, and the call returns it with the adapter's error |
| PaymentOutcomes.AnswerIsStored | apps/api/internal/orchestration/service.go:218-283 | in any run the attempt row, and nothing else, keeps what the connector answered: status, charge identifier, code, Pix; after a safe failure the payment is still routing and the thread is back in the loop with this connection excluded |
| PaymentOutcomes.AnswerIsConcluded | apps/api/internal/orchestration/service.go:231-283 | in any run the rows after an answered request that ends the call: success gives a succeeded attempt and a payment awaiting with its Pix; an unknown outcome gives an unknown attempt and a reconciling payment with the code; a terminal one gives a terminally failed attempt and a failed payment with the code; the stored payment is returned |
| PaymentDispatch.ReconcileAsks | apps/api/internal/orchestration/service.go:295-335 | in every reachable state a reconciliation asks the connector exactly about the unknown last attempt of a reconciling payment whose connection is listed and has an adapter; otherwise it returns the error that belongs to the first condition that fails, and changes nothing |
| PaymentOutcomes.VerdictIsStored | apps/api/internal/orchestration/service.go:338-398 | in any run the attempt row, and nothing else, keeps the verdict; while it is still unknown the payment's record is the one it was, is returned, and the next reconciliation is accepted |
| PaymentOutcomes.VerdictIsConcluded | apps/api/internal/orchestration/service.go:338-389 | in any run the rows after a verdict that settles the attempt: a charge that exists gives a payment awaiting with the identifier and Pix; a terminal verdict a failed payment with the code; no charge an attempt that failed safely with the code, and a payment that is routed again |
| PaymentOverlap.OverlappingReconcilersDoubleCharge | apps/api/internal/orchestration/service.go:295-353 | a run in which two reconcilers of one payment, both past reading it before either has saved it, lead to two live charges, so the assumption of `NoDoubleCharge` is needed |
| PaymentWebhooks.UnpayableChangesNothing | apps/api/internal/orchestration/webhooks.go:14-65 | a notice whose charge is unknown, not presented yet or already paid changes only the provider-event ledger when nobody else acts, wherever its call is cut off |
| PaymentWebhooks.EarlyNoticeChangesNothing | apps/api/internal/orchestration/webhooks.go:14-65 | in any interleaved run no step of a webhook changes anything but the ledger, as long as no payment awaits an attempt that has carried the notice's charge since it was received |
| PaymentWebhooks.PayableSucceeds | apps/api/internal/orchestration/webhooks.go:40-64 | a notice about a presented attempt can always be carried through, received before or not, and then the payment is paid at the time read, with one recovery exactly if its first attempt is not the paid one, with one event of each due kind and its fields, the notice is in the ledger as processed, and nothing else has changed |
| PaymentWebhooks.ReplaysAfterSuccess | apps/api/internal/store/memory/store.go:188-197 | any number of replays after success, each cut off anywhere, changes no payment and no outbox row |
| PaymentWebhooks.ReplayChangesNothing | apps/api/internal/orchestration/paid_events.go:16-29 | in any interleaved run, no step of a webhook received after its payment was paid changes anything but the ledger |
| PaymentNotices.MalformedIsRefused | apps/api/internal/orchestration/webhooks.go:31-36 | in any run a notice of another type, or without an identifier, is refused and changes nothing, the ledger included |
| PaymentNotices.LedgerIsKept | apps/api/internal/store/memory/store.go:188-211 | in any run an action enters only a well-formed notice, the first time it is received, with its fields and time, or marks an entry as processed; no entry is ever dropped or altered otherwise, or unmarked |
| PaymentNotices.UnknownChargeReplies | apps/api/internal/orchestration/webhooks.go:53-56 | a notice whose charge nobody carries is kept in the ledger and answered as not found |
| PaymentNotices.KnownChargeReplies | apps/api/internal/orchestration/paid_events.go:12-21 | in every reachable state a notice for a paid payment is answered with it and marked; one for a payment that does not await this attempt is refused, received but not marked |
| PaymentNotices.CommitIsStored | apps/api/internal/orchestration/paid_events.go:23-67 | in any run, whatever happens between reading the attempts and committing, a payment that still awaits is paid once, as for a payable notice; one paid meanwhile only gets a new time of payment |
| PaymentStore.Store.AddProviderConnection | apps/api/internal/store/memory/store.go:47-51 | the connection comes last in its workspace, and nothing else changes |
| PaymentStore.Store.GetOrCreatePayment | apps/api/internal/store/memory/store.go:53-66 | under a new key the row and the key are stored; under a taken one nothing changes and the stored payment comes back, or a conflict for another request; both as the abstract insert-or-read |
| PaymentStore.Store.SavePayment | apps/api/internal/store/memory/store.go:78-86 | exactly the payment's record changes, or nothing on an unknown one |
| PaymentStore.Store.AddAttemptWithRoutingDecision | apps/api/internal/store/memory/store.go:108-121 | an identifier that is stored anywhere is refused and nothing changes; otherwise attempt and decision are listed last under the payments they name, and with a stored payment that is the abstract append |
| PaymentStore.Store.SaveAttempt | apps/api/internal/store/memory/store.go:123-131 | the row under the identifier is replaced, and with it the attempt in every payment that lists it; an attempt of its own payment changes there and nowhere else; an unknown one is reported |
| PaymentStore.Store.GetAttempt | apps/api/internal/store/memory/store.go:133-141 | the result is an attempt of some payment under this identifier, or there is none |
| PaymentStore.Store.GetAttemptByProviderPaymentID | apps/api/internal/store/memory/store.go:143-152 | the search in no particular order returns an attempt with this charge, or there is none |
| PaymentStore.Store.ListAttempts | apps/api/internal/store/memory/store.go:154-164 | the payment's attempts sorted by sequence |
| PaymentStore.SortKeepsSequence | apps/api/internal/store/memory/store.go:162 | attempts that are numbered upwards come back in the order they were added |
| PaymentStore.Store.RecordProviderEvent | apps/api/internal/store/memory/store.go:188-197 | an event is stored exactly when its key is new |
| PaymentStore.Store.MarkProviderEventProcessed | apps/api/internal/store/memory/store.go:199-211 | only the processing time of the event changes |
| PaymentStore.Store.MarkPaymentPaidWithEvents | apps/api/internal/store/memory/store.go:213-234 | payment, first recovery of the payment that the recovery names, and unseen events are stored as the abstract commit says, or nothing for an unknown payment |
| PaymentStore.Store.GetPaymentEnvironment | apps/api/internal/store/memory/scope.go:9-29 | the environment returned can be read from attempt 1, and an error means that none can |
| PaymentService.Service.CreatePayment | apps/api/internal/orchestration/service.go:94-129 | the call goes through one creating thread from its start to its end: the store, the answers taken and the reply are those that the thread ends with |
| PaymentService.Service.ExecuteRouting | apps/api/internal/orchestration/service.go:131-293 | from the list of connections to the returned intent and error, the call goes through the steps of one routing thread, to its end |
| PaymentService.Service.Dispatch | apps/api/internal/orchestration/service.go:157-284 | one round goes through the steps of the thread until the call has ended, or the thread is back in the loop with the failed attempt recorded and its connection excluded |
| PaymentService.Service.ReconcilePayment | apps/api/internal/orchestration/service.go:295-399 | the call goes through one reconciling thread from its start to its end, with truthful lookups |
| PaymentService.Service.SettleAttempt | apps/api/internal/orchestration/service.go:338-398 | the connector's answer is saved, and what follows goes through the steps of the thread to its end |
| PaymentService.Service.MarkPaidWithOutbox | apps/api/internal/orchestration/paid_events.go:11-68 | the call goes through the steps of one webhook thread from reading the payment to marking the event, or to the error that it returns |
| PaymentService.Service.FirstFailure | apps/api/internal/orchestration/paid_events.go:41-58 | the scan finds the first safely failed attempt before the paid one |
| PaymentService.Service.PaymentMerchantEvents | apps/api/internal/orchestration/paid_events.go:70-84 | one event, or two exactly for a recovered payment: first `payment.paid`, then `payment.recovered`, each of the payment's workspace, keyed by its kind and the payment, carrying the payment's recovery |
| PaymentService.Service.ProcessProviderWebhook | apps/api/internal/orchestration/webhooks.go:12-65 | the call goes through one webhook thread from its start to its end, with truthful lookups |
| PaymentTrace.CallIsDetermined | apps/api/internal/orchestration/service.go:94-399 | two ways to meet the contract of one call, on the same store and answers, end with the same store, reply and answers taken, unless a lookup has several matching rows |
| PaymentTrace.AnswersAreTaken | apps/api/internal/orchestration/service.go:94-399 | a call that follows the code takes the outside's answers one after another, never gives up, and its thread works with exactly the health, adapter, charge outcome and verdict that it was told |
| PaymentCalls.CallSafe | apps/api/internal/orchestration/service.go:94-399 | a service call begun where the invariant holds, with providers charging meanwhile and answers as assumed, keeps it, and ends with the store and the thread that its contract gives |
| PaymentCalls.CallIsRun | apps/api/internal/orchestration/service.go:94-399 | such a call begun at the end of any run makes a longer run, with that store, that reply, and no other thread moved |
| PaymentCalls.AttemptsInSequence | apps/api/internal/store/memory/store.go:154-164 | in every reachable state attempts are numbered upwards, which the service relies on |
| Retry.RetryDelay | apps/api/internal/webhookdelivery/retry.go:10-31 | the doubling loop, in 64-bit arithmetic that never overflows, computes min(30 s · 2^(n-1), 6 h) with jitter |
| Retry.DelayBounds | apps/api/internal/webhookdelivery/retry.go:20-30 | every delay is between 27 seconds and 6.6 hours |
| Retry.DelayIncreases | apps/api/internal/webhookdelivery/retry.go:14-30 | up to the eleventh attempt each delay exceeds the one before, whatever the jitter |
| Retry.TwelveAttemptsWait | apps/api/internal/webhookdelivery/service.go:197-202 | the eleven waits of a twelve-attempt delivery total between 47061 and 57519 seconds |
| Retry.BackoffValues | apps/api/internal/webhookdelivery/retry.go:14-22 | the backoffs of the first ten attempts, one by one, and six hours from the eleventh on |
| DeliveryDb.FirstDueUnique | apps/api/internal/store/postgres/webhook_delivery.go:122-133 | the ordered, limited claim determines which deliveries it takes |
| DeliveryDb.FirstCandidatesUnique | apps/api/internal/store/postgres/webhook_delivery.go:79-101 | the ordered, limited selection determines which events it materializes |
| DeliverySafety.ApplySafe | apps/api/internal/webhookdelivery/service.go:148-219 | every step of any worker, merchant or payment keeps the delivery invariant |
| DeliverySafety.RunSafe | apps/api/internal/webhookdelivery/service.go:148-219 | the delivery invariant holds in every state of every run |
| DeliveryTheorems.AttemptsAreNumbered | apps/api/internal/store/postgres/webhook_delivery.go:179-206 | a delivery's history is numbered exactly 1 to its attempt count, which is at most `maxAttempts` |
| DeliveryTheorems.CompletionsAreCounted | apps/api/internal/store/postgres/webhook_delivery.go:191-216 | in any run a delivery's attempt count is the number of completions that were committed for it |
| DeliveryTheorems.StatusAgrees | apps/api/internal/webhookdelivery/service.go:191-203 | a locked delivery is pending or retry, an unfinished one has attempts left, and the delivery time is set exactly on success |
| DeliveryTheorems.CompletesIffClaimed | apps/api/internal/store/postgres/webhook_delivery.go:168-217 | a late or duplicate completion commits exactly while the worker still holds the claim, and then it records the next attempt |
| DeliveryTheorems.CompletionIsCurrent | apps/api/internal/store/postgres/webhook_delivery.go:191-212 | a committed completion belongs to the last claim of the delivery, by the same worker, and carries the count read at that claim |
| DeliveryTheorems.LockHasClaim | apps/api/internal/store/postgres/webhook_delivery.go:133-140 | every lock comes from a claim since which nobody has claimed or completed the delivery |
| DeliveryTheorems.FinishedForever | apps/api/internal/store/postgres/webhook_delivery.go:126-137 | a succeeded or failed delivery never changes again |
| DeliveryTheorems.LeaseExclusion | apps/api/internal/store/postgres/webhook_delivery.go:126-137 | no delivery is claimed again before the lease of an earlier uncompleted claim has run out |
| DeliveryTheorems.RetryWaits | apps/api/internal/webhookdelivery/service.go:197-202 | a retry is claimed only after the backoff of its last attempt |
| DeliveryTheorems.OneDeliveryPerEvent | apps/api/internal/store/postgres/webhook_delivery.go:95-109 | each event has at most one delivery, to an endpoint of its own scope |
| DeliveryTheorems.NewIsCandidate | apps/api/internal/store/postgres/webhook_delivery.go:90-98 | a delivery only appears for an event at or after the activation of its enabled endpoint |
| DeliveryRecords.CompletionRecords | apps/api/internal/webhookdelivery/service.go:186-218 | while the worker holds the delivery, the row is succeeded exactly for a 2xx report, with the completion time as delivery time; to be retried exactly for a retryable report (the ranges written out) while attempts are left, after its backoff; failed otherwise; row and history keep the reported HTTP status and error code, and the history its times and latency |
| DeliveryOutcomes.ReportIsRecorded | apps/api/internal/webhookdelivery/service.go:178-218 | in any run this is what a worker's commit records of the report it got, exactly when it still holds the delivery; otherwise nothing changes and the call ends |
| DeliveryOutcomes.ClaimTakesFirst | apps/api/internal/store/postgres/webhook_delivery.go:117-166 | in any run a claim locks the first deliveries, up to the limit, by next attempt, creation and identifier, that are due, unlocked or expired, and whose endpoint is enabled; each job carries the event and count of its delivery and the URL and secret of the endpoint of its scope; nothing else changes |
| DeliveryOutcomes.MaterializeMakesFirst | apps/api/internal/store/postgres/webhook_delivery.go:74-115 | in any run a worker makes one pending delivery, due at once, for each of the first undelivered events, up to four times the batch size, stamped at or after the activation of their enabled endpoint; nothing else changes |
| DeliveryOutcomes.RoundUsesOneReading | apps/api/internal/webhookdelivery/service.go:148-158 | in any run a round materializes, judges what is due and sets the lease by the one reading of the clock that it began with |
| DeliveryOutcomes.JobIsSent | apps/api/internal/webhookdelivery/service.go:158-218 | in any run the first remaining job is sent, recorded with the times at which it was sent and answered, and the others stay for later; after a refused completion the call ends |
| DeliveryTheorems.RotationKeepsActivation | apps/api/internal/webhookdelivery/service.go:122-138 | setting an endpoint stores its URL and secret, switches it on, keeps the identity and creation time of an existing one and the activation of an enabled one, and activates any other at the time the call has read; nothing else changes |
| DeliveryTheorems.DisableSwitchesOff | apps/api/internal/store/postgres/webhook_delivery.go:59-72 | disabling changes the flag of that endpoint and nothing else |
| DeliveryTheorems.EnabledSince | apps/api/internal/store/postgres/webhook_delivery.go:19-28 | in every run an enabled endpoint has been active since the time read by the call that last switched it on |
| DeliveryTheorems.OffEventIsCandidate | apps/api/internal/store/postgres/webhook_delivery.go:94-98 | an undelivered event stamped while its endpoint was off can be materialized iff the call that has since switched the endpoint on, and left it on, had read the clock no later than the stamp |
| DeliveryTheorems.FreshReadingNeedsTie | apps/api/internal/webhookdelivery/service.go:122-128 | for a call that reads the clock where it writes, no later than the stamp means at the very instant of the stamp |
| DeliveryTheorems.OffEventNeverDelivered | apps/api/internal/store/postgres/webhook_delivery.go:19-28 | without such a call it never gets a delivery, in any run of set, rotate, disable and materialize |
| DeliveryTheorems.EarlyReadingDelivers | apps/api/internal/webhookdelivery/service.go:122-138 | for every reading no later than the stamp there is a run in which the event is delivered |
| DeliveryTheorems.SplitSetEndpointRevives | apps/api/internal/webhookdelivery/service.go:128-137 | a disable between the read and the write of `SetEndpoint` restores the old activation, and the events of the interval become candidates |
| DeliveryStore.Store.UpsertWebhookEndpoint | apps/api/internal/store/postgres/webhook_delivery.go:12-41 | a new row is stored as given; an existing one takes URL, secret and flag, and keeps its identity, its creation time, and its activation if it is enabled |
| DeliveryStore.Store.DisableWebhookEndpoint | apps/api/internal/store/postgres/webhook_delivery.go:59-72 | only the flag of the endpoint changes, and a missing one is reported |
| DeliveryStore.Store.MaterializePendingDeliveries | apps/api/internal/store/postgres/webhook_delivery.go:74-115 | exactly the first `limit` candidates by creation time and identifier get a pending delivery |
| DeliveryStore.Store.ClaimDueDeliveries | apps/api/internal/store/postgres/webhook_delivery.go:117-166 | exactly the first `limit` due deliveries by next attempt, creation and identifier are locked, and their jobs come back by identifier with the counts they have |
| DeliveryStore.Store.CompleteDelivery | apps/api/internal/store/postgres/webhook_delivery.go:168-217 | attempt row and delivery change together or not at all |
| DeliveryService.ClassifyDelivery | apps/api/internal/webhookdelivery/service.go:221-238 | success exactly for 2xx; retry for 408, 425, 429, 5xx and transport errors other than an invalid or non-public target; failure otherwise |
| DeliveryService.Service.SetEndpoint | apps/api/internal/webhookdelivery/service.go:102-138 | the call is refused, and changes nothing, exactly for an empty workspace, an invalid URL, a secret under 32 bytes or a failed encryption; otherwise the endpoint is reset as stated and returned |
| DeliveryService.Service.DisableEndpoint | apps/api/internal/webhookdelivery/service.go:144-146 | the endpoint is off, or was missing |
| DeliveryService.Service.RunOnce | apps/api/internal/webhookdelivery/service.go:148-165 | the call is one whole run of one worker from idle to idle, whose statements take the rows they should and record what the sender reported; it succeeds exactly when every job it took has been recorded, and otherwise reports how many were |
| DeliveryService.Service.ProcessJob | apps/api/internal/webhookdelivery/service.go:167-219 | exactly three steps: start, send, record; a completion that commits leaves the row and history that belong to the report, written out, and the worker goes on to the remaining jobs; one that is refused changes nothing, and the worker is idle |
| DeliveryCalls.CallIsRun | apps/api/internal/webhookdelivery/service.go:148-165 | a call begun at the end of any run, with a clock that does not go back, makes a longer run, with the table that its contract gives |
| DeliveryCalls.RowsAreKeyed | apps/api/internal/store/postgres/webhook_delivery.go:106-109 | in every reachable state rows are stored under their own identifiers, which the statements rely on |
| Circuit.Tally | apps/api/internal/store/postgres/routing_telemetry.go:16-31 | successes, errors and timeouts are disjoint parts of the samples |
| Circuit.TallyRates | apps/api/internal/store/postgres/routing_telemetry.go:42-47 | the rates are non-negative and add up to at most one |
| CircuitCounts.TallyCounts | apps/api/internal/store/postgres/routing_telemetry.go:16-31 | samples, successes, errors and timeouts are the numbers of attempts on the connection requested in the window, and of those among them that succeeded, failed safely or terminally, or are unknown |
| CircuitCounts.SnapshotSummarizes | apps/api/internal/routingtelemetry/service.go:60-69 | a snapshot's rates are these numbers over the samples, and its score is 0.5 below five samples and otherwise the weighted sum, with its weights and the 2000 ms bound |
| CircuitCounts.SnapshotIsStored | apps/api/internal/routingtelemetry/service.go:56-72 | in any run a call that looks at a connection adds one snapshot, and it says that of the attempts the call read |
| Circuit.SnapshotScores | apps/api/internal/routingtelemetry/service.go:115-142 | for any attempts the score lies in [0,1], the clamp never acts, and an unhealthy snapshot scores at most 0.87 |
| Circuit.UnhealthyBoundIsTight | apps/api/internal/routingtelemetry/service.go:127-132 | 0.87 is reached |
| Circuit.ScoreIsMonotone | apps/api/internal/routingtelemetry/service.go:115-125 | a better rate or a lower latency never lowers the score |
| CircuitTheorems.OpenedTimeIsKept | apps/api/internal/routingtelemetry/service.go:81-113 | whatever refreshes fail, a circuit is open or half-open exactly when it carries an opened time, and half-open only after the cooldown; the branch for a missing time is never taken |
| CircuitTheorems.OpensOnTwoUnhealthy | apps/api/internal/routingtelemetry/service.go:83-87 | a closed circuit opens exactly when the current snapshot and the one stored before it, within the window, are both unhealthy and the refresh gets past the connection; a refresh that fails in between leaves it closed |
| CircuitCounts.OpensInTrouble | apps/api/internal/routingtelemetry/service.go:83-87 | in any run a closed circuit opens exactly in a refresh that gets past its connection, when in that refresh and in the one before it, within the window, the attempts themselves show enough samples and under 7 in 10 succeeded, or at least 3 in 10 failed, or at least 1 in 5 unknown; it opens at the time the call has read, and never turns half-open directly |
| CircuitTheorems.OpenTurns | apps/api/internal/routingtelemetry/service.go:88-91 | an open circuit turns half-open exactly in a refresh that gets past it after the cooldown, keeping its opened time, and stays open otherwise |
| CircuitTheorems.HalfOpenTurns | apps/api/internal/routingtelemetry/service.go:92-111 | in a refresh that gets past it a half-open circuit closes exactly when the latest attempt since it opened succeeded, and reopens at once exactly when that attempt failed or is unknown; in any other call it stays |
| Circuit.LatestSinceFinds | apps/api/internal/store/postgres/routing_telemetry.go:108-116 | the latest attempt since a time is one that no other such attempt follows, or there is none |
| CircuitTheorems.NoRequestBeforeCooldown | apps/api/internal/orchestration/service.go:136-146 | after a circuit opens, whatever refreshes fail, no request goes to its connection before opened time plus cooldown, not even in the call that opened it |
| CircuitRuns.RefreshedRows | apps/api/internal/routingtelemetry/service.go:49-79 | a refresh does to each connection of the environment what its own snapshots and attempts decide, and leaves the others alone |
| CircuitTheorems.CallRow | apps/api/internal/routingtelemetry/service.go:49-79 | a refresh that may fail anywhere moves the connections that it gets past, adds a snapshot alone to the one it fails at after saving, and leaves the others alone |
| Telemetry.Store.AggregateProviderHealth | apps/api/internal/store/postgres/routing_telemetry.go:12-49 | the loop counts the attempts of the window |
| Telemetry.Store.ListRecentProviderHealthSnapshots | apps/api/internal/store/postgres/routing_telemetry.go:70-106 | the most recent snapshot by observation and insertion |
| Telemetry.Store.LatestProviderAttemptSince | apps/api/internal/store/postgres/routing_telemetry.go:108-116 | the latest attempt since a time, by request time and identifier |
| Telemetry.Store.UpdateProviderCircuit | apps/api/internal/store/postgres/routing_telemetry.go:118-131 | only the circuit of the connection changes, and a missing one is reported |
| Telemetry.Service.EvaluateCircuit | apps/api/internal/routingtelemetry/service.go:81-113 | the table changes by the move that the specification decides, and by nothing else |
| Telemetry.Service.Refresh | apps/api/internal/routingtelemetry/service.go:49-79 | the loop does what the fold over the connections says with one reported latency each, stops at the first failure, and reports for every connection of the environment the snapshot that it has just stored |

## Left out

- `Service.MarkPaid` (service.go:401-460): the running service marks payments paid through
  `MarkPaidWithOutbox`; mixing the two would break the outbox statement.
- Two `ReconcilePayment` calls that both read a payment before either saves it: excluded by
  assumption from the theorems; `PaymentOverlap` shows what they can do.
- HTTP handlers, authentication, configuration, the web application, and connection onboarding.
- Connectors, senders and ciphers: arbitrary answers. The lookup of the connection and the
  parsing of a notification before `ProcessProviderWebhook` records it are not modelled.
- Hashes, JSON payloads and fingerprint bytes; in the machine the retry jitter is any value in
  900..1100 permille.
- Created and updated timestamps of payments and attempts, the request and response times of
  attempts in the payment machine, reason codes and score versions of decisions.
- The statuses `expired` and `cancelled`, which no code sets.
- Floating-point rounding and the percentile query: rates and scores are exact reals, latency is
  any non-negative real.
- Errors of the in-memory store other than those it returns, and in the service classes errors
  of the stores that the code would pass on; in the machines any call may fail or never
  return: a thread halts, a worker gives up, a refresh stops after any statement.
- `FOR UPDATE ... SKIP LOCKED`: statements are atomic, so no row is ever found locked.
- The circuit breaker inside the payment machine: there, a routing call reads an arbitrary
  health map, and connections may change circuit at any time.
- Router.Select: reason codes and score versions are not part of the result.
- Telemetry.Store.ListRecentProviderHealthSnapshots: only the limit of one that the service uses.
