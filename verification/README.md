# Commercial billing: a verified model

A Dafny model of the commercial-subscription state machine in `backend/app/billing`: a webhook
protocol with at-least-once, reordered, duplicated, failing and concurrent deliveries, which drives
one subscription row per workspace, an idempotency log and an append-only audit log, together with
the operator commands that work on the same tables. `dafny verify dfyconfig.toml` checks everything.

The database is a value, `BillingTypes.Tables`. Its two unique constraints are built in: subscriptions
are keyed by workspace, the webhook log by (provider, event id). What a delivery or a command does to
the tables is stated field by field in `DodoProcessor`, `PaddleProcessor` and `DodoOperator`. The
services themselves are in `DodoService`, `PaddleService` and `OperatorService`: methods that mutate
loaded row objects assignment by assignment, in a `Session` with a working and a committed copy of the
tables and a script of database failures, each proved to do what the processors state. `Runs` strings
deliveries, commands and reconciliations into runs, in any order; the properties below are about all
runs. `CustomerRow` computes one customer's row from that customer's deliveries alone, whatever else a
run does. `Concurrency` splits one delivery into its reads, inserts, updates and commits over the same
tables and lets any number of workers interleave them; `Overlap` has two events of one customer read
before either is committed.

What the processors state is in turn described from outside, from the payload, the command line or the
provider's answer to the tables, with every spelling, number and date written out: `NamedEffects` and
`NamedDeliveries` for Dodo deliveries, `PaddleEffects`, `OperatorDecisions`, and `AccessHistory` for what a
workspace may do.

Every `.first()` query without an order is modelled as answering with any matching row. Time, settings,
provider answers and the moment an attempt raises are parameters of each step.

## Main results

- Order: `OrderIndependence.NewestEventDecidesExactly` over any traffic with any redeliveries,
  `OrderIndependence.NewestEventDecides`, `OrderIndependence.OrderDoesNotMatter` and
  `OrderIndependence.HarmlessExactly` over schedules without untimely ones, and what those leave open,
  `Convergence.SeatsConvergeExactly`, `Convergence.PlanOfAPauseConvergesExactly`.
- From payload to tables: `NamedDeliveries.DeliveryByName`, `NamedDeliveries.CreationByName`,
  `NamedDeliveries.AuditByName`, `PaddleEffects.DeliveryByName`, `OperatorDecisions.ReconcileReportsExactly`,
  `OperatorDecisions.ReconcileWritesTheReport`.
- Access: `NamedDeliveries.DeliveryDecidesAccess`, `AccessHistory.AccessIsGranted`,
  `AccessHistory.EndingsLast`, `Entitlements.DecisionExactly`.
- Staleness: `CustomerRow.RowIsPlayed`, `Staleness.FallbackIsNeverConsulted`,
  `Staleness.AppliedTimesNeverDecrease`.
- Concurrency: `WorkerDeliveries.LoneWorkerDelivers`, `Concurrency.InterleavingIsOneDelivery`,
  `Concurrency.WrittenTwiceExactly`, `DoubleDelivery.DeliveredTwiceExactly`,
  `Overlap.OverlapIsInTurnExactly`.
- Runs: `Delivery.EffectAtMostOnce`, `Delivery.FailedAttemptIsInvisible`,
  `References.UniqueThroughoutExactly`, `AuditTrail.WholeTrailIsOneChain`,
  `RowHistory.VersionIdentifiesContent`, `RowHistory.PaidAccessHasProvenance`,
  `OperatorSafety.PreparedRowsAreInert`, `SeatAgreement.StoredSeatsPriceConsistently`.
- The services against their specification, under any database failures:
  `DodoService.DodoWebhookRoute`, `PaddleService.PaddleWebhookRoute`, `OperatorService.ReconcileCommand`.
- Around them: `Cutover.NothingReportedExactly`, `RetryLoop.Request`,
  `Signatures.DodoHeaderRoundTripsExactly`, `SyncRunMigration.ExactlyTheNewestSurvives`.

## Where the code may surprise

The model follows the code. Some of what it does goes against its own description, or is easy to
miss; each of these points is a lemma.

- A redelivery turns a processed log row into `duplicate_ignored`, and the staleness baseline only
  counts processed rows. So "the newest event decides" is false of the code under redelivery: redelivering
  the newest can let an older one overwrite it, and redelivering the only processed event brings the row's
  write time back as baseline (`OrderHazards.RedeliveryOfNewestUndoesIt`,
  `OrderHazards.RedeliveryOfOlderDropsNewest`). `OrderIndependence.NewestEventDecidesExactly` says for
  which traffic it holds. The same flip takes the event out of the history that
  `find_multi_subscription_customers` reads (`Cutover.RedeliveryErasesHistory`).
- A payment or dunning event of the customer raises the staleness baseline and may change the status, so
  it too can keep the newest lifecycle event from deciding: `OrderIndependence.HarmlessExactly` says which
  ones cannot.
- A failed payment makes any row past due, and past due pays: on a canceled, expired or paused subscription
  it brings paid access back (`NamedDeliveries.DeliveryDecidesAccess`, `PaddleEffects.DeliveryDecidesAccess`).
- Seats, and the plan of a customer whose newest event is a pause, can depend on the order of arrival:
  `Convergence.SeatsConvergeExactly` and `Convergence.PlanOfAPauseConvergesExactly` say for which
  customers they do not.
- `process_paddle_webhook` marks a raising delivery failed, but its route rolls that mark back
  (`PaddleService.PaddleWebhookRoute`), so raising attempts are lost from every run
  (`Delivery.RaisingPaddleAttemptsLeaveNoTrace`).
- Creating a row by reconciliation does not check whether the subscription is attached to another
  workspace; only replacing does (`References.ReconcileCreateCanDuplicate`,
  `References.EchoedReconcileKeepsUniqueExactly`).
- The log's unique key serializes the first insert only. `Concurrency.WrittenTwiceExactly` says when
  two workers that start together can both write the subscription row: an update loses one version
  increment and repeats its audit entries (`Concurrency.UnsettledUpdateIsNotSerialized`); a second
  creation is stopped by the workspace's unique key, a later update of the created row is not.
  `DoubleDelivery.DeliveredTwiceExactly` says when two can both deliver it, which repeats its audit
  entries even where no row is written.
- Deliveries of two events of one customer take no lock and compare no version. When both write the row,
  the one that commits last overwrites what the other changed, be it the older one
  (`Overlap.OverlapIsInTurnExactly`, `Overlap.OlderCanOverwriteNewest`).
- Reconciliations, Dodo's and Paddle's, change a status under an audit entry of another type, so the
  chain of status entries breaks exactly there (`AuditTrail.StepContinuesExactly`).
- Stripe's status map is not idempotent on two spellings; no access decision depends on it
  (`Entitlements.StripeNormalizationIdempotentExactly`).
- A `Retry-After` header that is no duration makes the retry loop raise an error of the float parser,
  not one of the client's (`RetryLoop.UntranslatedExactly`), and a signature candidate that is not ASCII
  makes the comparison raise (`Signatures.RaisesExactly`).

## Model

| member | source | states |
|---|---|---|
| OrderIndependence.NewestEventDecides | backend/app/billing/dodo_webhook_service.py:420-620 | When the customer's events of other types are harmless: however the events are delivered (any order, failed attempts, foreign traffic in between, redeliveries once the newest is done), as soon as the newest lifecycle event is done it is the last to have written the row, which has its status, and its plan and reference if it is a creation or update. |
| OrderIndependence.OrderDoesNotMatter | backend/app/billing/dodo_webhook_service.py:420-620 | Any two such deliveries of the same events, from two databases and in two orders, end with equal status, and equal plan and named reference when the newest event is a creation or update. |
| OrderIndependence.NewestEventDecidesExactly | backend/app/billing/dodo_webhook_service.py:420-620 | Whatever traffic brings the newest event through, with any redeliveries and failed attempts and events of any type: the newest is the last to write the row, and the row then reflects it, if and only if at its first completed delivery it is not late, and every writing event first completed after it is. Late means older than a done event that was not redelivered, or, when there is none, than the row's last write. |
| OrderIndependence.HarmlessExactly | backend/app/billing/dodo_webhook_service.py:420-620 | For every customer: all schedules without untimely redeliveries that bring the newest lifecycle event through, and equally all that bring all events through, have it write the row last if and only if every event of another type is older than it, or writes no row and is not newer, or writes no row and the newest is the only lifecycle event. |
| CustomerRow.RowIsPlayed | backend/app/billing/dodo_webhook_service.py:362-463 | After any traffic, the row of a customer's workspace is the one that a recursion over the customer's own deliveries computes, from the done and the redelivered events and the row alone. |
| CustomerRow.RowDependsOnOwnDeliveriesOnly | backend/app/billing/dodo_webhook_service.py:362-463 | So two databases that see the same own deliveries in the same order hold the same row, whatever else happens in either. |
| CustomerRow.OutdatedExactly | backend/app/billing/dodo_webhook_service.py:447-463 | In every such state, an event is out of date for the customer's row if and only if it is older than a done event that was not redelivered, or, when there is none, than the row's last write. |
| CustomerRow.AttemptsCanHappen | backend/app/billing/dodo_webhook_service.py:420-620 | Every list of deliveries of the customer's events, failing or not, can happen. |
| Convergence.SeatsConvergeExactly | backend/app/billing/dodo_webhook_service.py:517-521 | For every customer whose newest lifecycle event is a creation or update and whose other events are harmless: all schedules that bring the newest through, and equally all that bring all events through, end with its seats if and only if it is for Pro or every Team event asks for the same number of seats. |
| Convergence.PlanOfAPauseConvergesExactly | backend/app/billing/dodo_webhook_service.py:325-340 | For every customer whose newest lifecycle event is a pause or cancellation and whose other events are harmless: all schedules that bring all events through end on one plan if and only if all lifecycle events are for one plan; the plan is then settled once the newest is through. |
| Convergence.FinalTerms | backend/app/billing/dodo_webhook_service.py:517-521 | After any traffic, with any redeliveries, plan and seats of the customer's row are together those of one of the customer's lifecycle events. |
| OrderHazards.SeatsDependOnOrder | backend/app/billing/dodo_webhook_service.py:517-521 | Any two Team events: in every run whose own deliveries are these two, in either order, the final seats are those of whichever came first (`Convergence.SeatsConvergeExactly` says for which customers this makes a difference). |
| OrderHazards.SeatsOfTheNewestAreLost | backend/app/billing/dodo_webhook_service.py:517-521 | A concrete customer, meeting every condition of the order-independence result, whose newest event asks for seven additional seats and whose row, after delivery in order, has three. |
| OrderHazards.PlanOfAPauseDependsOnOrder | backend/app/billing/dodo_webhook_service.py:569-572 | When the newest event is a pause or cancellation, the final plan after it and any other event is the plan of the one that arrived first (`Convergence.PlanOfAPauseConvergesExactly` says for which customers this makes a difference). |
| OrderHazards.RedeliveryOfNewestUndoesIt | backend/app/billing/idempotency.py:115-117 | For any two events a and o older than the newest, in every run whose own deliveries are a, the newest, the newest again, o: before o the row has what the newest says, and o changes it, into what o says, if and only if o is no older than a. The condition for every schedule is `OrderIndependence.NewestEventDecidesExactly`. |
| OrderHazards.RedeliveryOfOlderDropsNewest | backend/app/billing/idempotency.py:120-153 | In every run whose own deliveries are an older event twice and then the newest: the newest is dropped if and only if it happened before the row was written. The condition for every schedule is `OrderIndependence.NewestEventDecidesExactly`. |
| Staleness.FallbackIsNeverConsulted | backend/app/billing/dodo_webhook_service.py:362-399 | After any run of timestamped events without redelivery of a processed one, an event that finds a row finds a processed event as baseline, so the row's write time is never used. |
| Staleness.RedeliveryKeepsBaselineExactly | backend/app/billing/dodo_webhook_service.py:375-381 | After a completed event was redelivered, an event has a baseline if and only if another processed event shares one of its references; otherwise the row's write time decides. |
| Staleness.AppliedEventIsNewest | backend/app/billing/dodo_webhook_service.py:447-463 | An event that changes an existing row is at least as new as every processed event of its customer or subscription. |
| Staleness.AppliedTimesNeverDecrease | backend/app/billing/dodo_webhook_service.py:447-463 | In such a run, whenever an event changes an existing row, every event of that customer processed at any earlier step is at most as new. |
| Staleness.RunKeepsInvariant | backend/app/billing/dodo_webhook_service.py:362-399 | Every such run keeps: the log records the events as first delivered, and each reference of a row was carried by a processed event. |
| Idempotency.LatestProcessed | backend/app/billing/dodo_webhook_service.py:362-399 | The baseline is the greatest time of the processed rows matching either reference, the event's own row excluded; it is absent exactly when there is none. |
| Concurrency.AppliedAtMostOnce | backend/app/billing/idempotency.py:58-98 | Over every interleaving of the reads, inserts, updates and commits of any number of workers delivering a new event, while no attempt has ended failed: at most one delivers it, one exactly when it has a committed row, at most one holds an uncommitted row under the key, and nobody works on a row it did not insert. |
| Concurrency.InterleavingIsOneDelivery | backend/app/billing/idempotency.py:58-98 | In the same executions the committed tables are those before, or exactly those one delivery on its own makes of them, and the event's row of the log is processed as by that delivery, or marked a duplicate since: the interleaving is equivalent to delivering once. |
| Concurrency.IntendedIsApplied | backend/app/billing/dodo_webhook_service.py:420-620 | What a worker of the interleaving model intends to write after a read is, performed on the tables it read, the effect and the error category of one delivery. |
| WorkerDeliveries.LoneWorkerDelivers | backend/app/billing/dodo_webhook_service.py:155-230 | Whatever one worker of the interleaving model does on its own, raising and crashing included: until it ends, and when it crashes, tables and log status stay as they were; otherwise they, and how it ended, are those of one delivery. |
| WorkerDeliveries.LoneWorkerCan | backend/app/billing/dodo_webhook_service.py:155-230 | Conversely, for every answer of the lookup and every choice of raising or not, some schedule of the lone worker ends in exactly that delivery. |
| WorkerDeliveries.CommitsLeaveDeliveryStatus | backend/app/billing/dodo_webhook_service.py:175-230 | Over every interleaving, whatever fails: a commit leaves the log status of a delivery from the tables its worker read (failed when it finds no home, processed otherwise), a failure mark that of a raising delivery, a duplicate mark that of a repeated one, and no other action changes it. |
| Concurrency.WrittenTwiceExactly | backend/app/billing/idempotency.py:58-98 | For workers starting together on any tables: two of them can deliver the event and both write the subscription row if and only if there are three of them with no log row yet, or two with an unsettled one, and the event updates a row it finds or creates one it would find again and update. |
| DoubleDelivery.DeliveredTwiceExactly | backend/app/billing/idempotency.py:58-98 | For workers starting together on any tables: two of them can both deliver the event if and only if there are three of them with no log row yet, or two with an unsettled one, and some possible answer of the lookup lets the event through, other than to create a row without a reference to find it by. |
| DoubleDelivery.StaleEventIsRecordedTwice | backend/app/billing/dodo_webhook_service.py:447-463 | From every such state with an unsettled log row, two workers of an event that is out of date can leave two duplicate-ignored entries for it and no other change to the subscriptions. |
| Concurrency.UnsettledUpdateIsNotSerialized | backend/app/billing/idempotency.py:66-67 | From every state with an unsettled log row and an event that updates a row, any two workers that have not started can both deliver it: the row is written twice with the same content, so its version rises by one only, and every audit entry is there twice. |
| Concurrency.UnsettledCreationIsNotSerialized | backend/app/billing/models.py:92-97 | For a creating event the workspace's unique key stops a simultaneous second creation, but a worker that reads after the first commit updates the new row, unless its write time makes the event out of date. |
| Concurrency.LateFailureReopensProcessedRow | backend/app/billing/dodo_webhook_service.py:215-229 | From every state with a processed log row, one worker rolled back and one not started: the late failure mark reopens the row, and an event that updates a row it finds updates it once more. |
| Concurrency.ReopeningIsReachable | backend/app/billing/dodo_webhook_service.py:215-229 | Two workers on a fresh event reach that state, with the tables of one delivery. |
| Concurrency.SettledRowAdmitsNobody | backend/app/billing/dodo_webhook_service.py:167-173 | When the row was settled before the workers started, in every interleaving the tables stay as they are and the row stays settled. |
| Overlap.OverlapIsInTurnExactly | backend/app/billing/dodo_webhook_service.py:447-611 | Two events of one customer, both read before either is committed: the tables they leave are those of one after the other, in one order or the other and up to the order of audit entries, if and only if not both write the row and they are not two stale events of one time that only the row's write time makes stale. |
| Overlap.OlderCanOverwriteNewest | backend/app/billing/dodo_webhook_service.py:447-611 | When the newest and an older lifecycle event overlap and both write, and the older commits last, the row ends with the older one's status unless that was the row's before. |
| Delivery.EffectAtMostOnce | backend/app/billing/dodo_webhook_service.py:167-173 | Over every run, at most one delivery of an event id changes a subscription or the audit log, and none once its row is settled. |
| Delivery.AttemptsAreCounted | backend/app/billing/idempotency.py:101-117 | Over every run the attempt counter of an event rises by exactly the attempts made on it, and what its first delivery recorded never changes. |
| Delivery.OutcomesAndEffects | backend/app/billing/dodo_webhook_service.py:155-230 | What each outcome means: duplicate exactly on a settled row, raised exactly otherwise when raising; every outcome but delivered leaves subscriptions and audit alone; the event's row ends in the matching status and no other row of the log changes. |
| Delivery.RaisingAttemptIsAtomic | backend/app/billing/dodo_webhook_service.py:199-230 | A raising attempt on an unsettled event leaves subscriptions and audit at the last commit and durably leaves one failed row with the attempt count raised by one. |
| Delivery.RaisingPaddleAttemptsLeaveNoTrace | backend/app/routers/paddle_webhook.py:57-67 | Dropping from any run every Paddle delivery of an unsettled event that raised gives a valid run with the same result: such attempts, and their failure marks, are lost. |
| Delivery.FailedAttemptIsInvisible | backend/app/billing/dodo_webhook_service.py:199-230 | Retrying after a failed attempt has the outcome and the whole effect of delivering without it, apart from one more attempt counted. |
| Delivery.StepLogFrame | backend/app/billing/models.py:139 | Every kind of step leaves all rows of the log as they are, except that a delivery writes the row of its own event. |
| DeliveryShape.DeliverySubscriptions | backend/app/billing/dodo_webhook_service.py:420-620 | A delivery writes the subscription table only when it is new, did not raise, is of a known type and either may create or is not out of date; the result is that one row written. |
| DeliveryShape.DeliveryLogRow | backend/app/billing/idempotency.py:58-117 | A delivery changes its own row of the log and no other, keeping what was first recorded and setting status, count and category of this attempt. |
| DeliveryShape.DeliveryAudit | backend/app/billing/audit.py:28-44 | The audit log only grows, by the entries of the one branch taken. |
| References.ReferencesStayUnique | backend/app/billing/dodo_webhook_service.py:233-245 | Every run of deliveries and preparations keeps non-empty subscription references, and customer references, pairwise distinct across Dodo rows. |
| References.UniqueThroughoutExactly | backend/app/billing/dodo_webhook_service.py:233-245 | Over every run of any steps, references are unique at every point if and only if each reconciliation that writes is reported ids no other Dodo row holds at the time. |
| References.DeliveriesAreDeterministic | backend/app/billing/dodo_webhook_service.py:233-245 | After any such run the two lookup queries have one possible answer for every event. |
| References.ReconcileKeepsUniqueExactly | backend/app/billing/dodo_webhook_service.py:853-942 | An applied reconciliation keeps subscription references unique if and only if no other Dodo row holds the id the provider reports, and customer references if and only if none holds the customer it reports. |
| References.EchoedReconcileKeepsUniqueExactly | backend/app/billing/dodo_webhook_service.py:853-863 | When the provider echoes the requested id: unique if and only if the workspace has a row already or no other Dodo row holds the id; only the replace path has that guard. |
| References.ReplaceKeepsSubscriptionReferencesUnique | backend/app/billing/dodo_webhook_service.py:853-863 | When the provider echoes the requested id, replacing never duplicates a subscription reference. |
| References.ReconcileCreateCanDuplicate | backend/app/billing/dodo_webhook_service.py:917-934 | A concrete database and provider answer for which creating by reconciliation stores a reference twice. |
| Lookup.UniqueReferencesDetermineLookup | backend/app/billing/dodo_webhook_service.py:233-245 | With unique references any two answers of the lookup are the same row. |
| Lookup.SharedReferenceIsAmbiguous | backend/app/billing/dodo_webhook_service.py:233-245 | When two rows share a reference, both are possible answers. |
| Cutover.FindDuplicateSubscriptions | backend/scripts/dodo_live_cutover.py:151-191 | The grouping loops return the report over the rows, subscription references first, in the order of first occurrence. |
| Cutover.ReportIsExact | backend/scripts/dodo_live_cutover.py:170-191 | The report is sound and complete: a finding is in it if and only if two rows carry its reference, it lists the workspaces of all of them, and no reference is reported twice. |
| Cutover.ReportedExactly | backend/scripts/dodo_live_cutover.py:151-191 | A finding is reported if and only if what it says is the case: more than one listed row carries its reference, these workspaces in listing order, the first with this provider. |
| Cutover.ReportedInOrder | backend/scripts/dodo_live_cutover.py:170-191 | Subscription references come first, those of one kind in order of first occurrence. |
| Cutover.NothingReportedExactly | backend/scripts/dodo_live_cutover.py:151-191 | However the table is listed, nothing is reported if and only if no two rows, of whatever provider, share a reference. |
| Cutover.RunsAreReportedClean | backend/scripts/dodo_live_cutover.py:151-191 | After every run from an empty table whose reconciliations are reported free ids, deliveries and preparations being unrestricted, the check reports nothing. |
| Cutover.FindMultiSubscriptionCustomers | backend/scripts/dodo_live_cutover.py:194-250 | There is one finding for each customer of whom the processed rows show more than one subscription, in the order the customers first appear, listing all of them in ascending order. |
| Cutover.CustomersAreExact | backend/scripts/dodo_live_cutover.py:239-250 | Those customers are exactly the ones with more than one subscription, each once, and what a finding lists is determined by its customer. |
| Cutover.CustomersInOrder | backend/scripts/dodo_live_cutover.py:239-250 | The customers come in the order the selected rows first show them. |
| Cutover.CustomerReportedExactly | backend/scripts/dodo_live_cutover.py:194-250 | However the log is listed, a customer is reported if and only if two processed rows of it show different subscriptions. |
| Cutover.RedeliveryErasesHistory | backend/scripts/dodo_live_cutover.py:225-237 | After a completed event is redelivered, a customer is reported if and only if the other processed events show two subscriptions by themselves. |
| OperatorSafety.ReconcileFailsClosed | backend/app/billing/dodo_webhook_service.py:723-943 | Every refusal, dry run and repeat leaves the database as it was; a write happens only on apply, in an existing workspace, with one audit entry. |
| OperatorSafety.ReconcileNeverReplacesLive | backend/app/billing/dodo_webhook_service.py:770-863 | A replaced row is a Dodo row the provider confirms as over or unknown, or one without reference and without access; the new subscription is active, of the same customer and workspace and attached nowhere else. |
| OperatorSafety.ReconcileGrantsVerifiedPlan | backend/app/billing/dodo_webhook_service.py:865-942 | A write leaves an active Dodo row with paid access on the plan whose product id the provider reported, and the seats of its addons. |
| OperatorSafety.ReconciledSeatsAgreeExactly | backend/app/billing/dodo_webhook_service.py:865-866 | The seats written agree with the plan if and only if the plan is Pro or the reported addon quantity is not negative. |
| OperatorSafety.ReconcileIsIdempotentExactly | backend/app/billing/dodo_webhook_service.py:733-744 | Repeating the command after it wrote reports the subscription as already reconciled, and changes nothing, if and only if the provider had echoed the non-empty id it was asked for. |
| OperatorSafety.RepeatNeverWritesExactly | backend/app/billing/dodo_webhook_service.py:733-863 | No provider answer and no settings make a repeat write if and only if the provider had echoed the id, had reported none, or the id is attached to another workspace. |
| OperatorDecisions.ReconcileReportsExactly | backend/app/billing/dodo_webhook_service.py:723-893 | What the reconciliation reports: already reconciled, else the first of sixteen obstacles in the order they are looked for, each stated on arguments and provider answers, else what it wrote or would write; every case if and only if. |
| OperatorDecisions.WritesInItsEnvironment | backend/app/billing/dodo_webhook_service.py:746-759 | A write implies that Dodo is configured, and for live if and only if the live flag is given. |
| OperatorDecisions.ReconcileWritesTheReport | backend/app/billing/dodo_webhook_service.py:865-942 | Every column of the written row, and the entry beside it, from the provider's report and the row before. |
| OperatorDecisions.AddonQuantityExactly | backend/app/billing/adapters/dodo.py:290-293 | The quantity is that of the last addon with the seat addon's id, 0 without one. |
| OperatorSafety.PrepareFailsClosedAndIsIdempotent | backend/app/billing/dodo_webhook_service.py:1031-1113 | Preparation writes if and only if applied to an unprepared Dodo row with the expected reference; otherwise nothing changes, and a second call with any arguments changes nothing. |
| OperatorDecisions.PrepareReportsExactly | backend/app/billing/dodo_webhook_service.py:1031-1076 | What the preparation reports, case by case in the order of the checks. |
| OperatorDecisions.PreparationWrites | backend/app/billing/dodo_webhook_service.py:1078-1107 | The prepared row, of which nothing else changes, and the entry that keeps what it was. |
| OperatorSafety.PreparedRowsAreInert | backend/app/billing/dodo_webhook_service.py:1081-1091 | After an applied preparation, every run without an applied reconciliation of that workspace leaves its row unchanged and its plan and limits those of Free. |
| AuditTrail.AuditRetellsStatus | backend/app/billing/dodo_webhook_service.py:611-618 | From any point at which a workspace has a row, the status entries a run adds form a chain from its status then to its status now, as long as no reconciliation changes the status. |
| AuditTrail.WholeTrailIsOneChain | backend/app/billing/dodo_webhook_service.py:465-620 | The status entries of a workspace in the whole log form one chain from the status its row was created with to its current one. |
| AuditTrail.StepContinuesExactly | backend/app/billing/dodo_webhook_service.py:465-620 | A step of any kind continues the chain if and only if it is not, judged before it runs, a reconciliation that will go through and finds another status at the provider than the row has. |
| AuditTrail.DodoReconcileBreaksTheTrail | backend/app/billing/dodo_webhook_service.py:883-912 | A concrete Dodo reconciliation after which the status entries no longer lead to the row's status. |
| AuditTrail.PaddleReconcileBreaksTheTrail | backend/app/billing/reconciliation_service.py:84-121 | A concrete Paddle reconciliation after which they do not either. |
| AuditTrail.NoStatusUpToCreation | backend/app/billing/dodo_webhook_service.py:345-354 | Up to and including its creation a workspace has no status entries. |
| Audit.FilterKeepsStatusDetails | backend/app/billing/audit.py:19-35 | The detail filter keeps exactly the allowlisted keys with their values and is idempotent. |
| Runs.StepFrame | backend/app/billing/models.py:92-97 | Every step writes at most one row, of its own provider, deletes none, moves none to another provider, raises the version of a changed row by exactly one and only extends the audit log. |
| RowHistory.VersionIdentifiesContent | backend/app/billing/dodo_webhook_service.py:471-611 | Two points of a run at which a workspace's row has the same version have the same row, in every field. |
| RowHistory.RowsPersist | backend/app/billing/models.py:92-117 | Over every run a row stays, keeps its provider, its version never falls and an unchanged version means an unchanged row. |
| RowHistory.ManagementProviderIsStable | backend/app/billing/provider_routing.py:111-123 | From a row's creation on, no run and no change of settings changes the provider that manages or reconciles it. |
| RowHistory.PaidAccessHasProvenance | backend/app/billing/dodo_webhook_service.py:262-343 | For every row that appears in a run there is a step that accounts for it: a delivered lifecycle event naming the workspace with plan and status, or an applied reconciliation of it; the row is a Dodo row of an existing workspace. |
| RowHistory.OnlyTheseStepsCreate | backend/app/billing/dodo_webhook_service.py:254-323 | No other kind of step creates a row. |
| RowHistory.PaymentsAloneGrantNothing | backend/app/billing/dodo_webhook_service.py:248-253 | Any amount of payment, dunning and Paddle traffic leaves a workspace without a row without one. |
| RowHistory.PaymentRecoversAnExistingRow | backend/app/billing/dodo_webhook_service.py:599-606 | On an existing row a successful payment gives paid access if and only if there was access or the row was incomplete. |
| SeatAgreement.StoredSeatsPriceConsistently | backend/app/billing/dodo_webhook_service.py:325-341 | After every run whose reconciliations report no negative seats each Dodo row is priced consistently: components sum to the total, the desired state agrees, a Team row costs 3000 plus 500 per additional seat and needs no seat update, a Pro row costs 1000. |
| SeatAgreement.UpdateKeepsSeats | backend/app/billing/dodo_webhook_service.py:517-521 | No update breaks the agreement of seats with the plan, and seats change only together with the plan. |
| Pricing.AgreeingSeatsPriceConsistently | backend/app/billing/pricing.py:152-257 | On agreeing seats, price, desired state and seat reconciliation reproduce the stored additional quantity. |
| Pricing.TotalIsSumOfComponents | backend/app/billing/pricing.py:152-257 | The total of every priced plan is the sum of its components and never falls when members are added. |
| Pricing.PriceExactly | backend/app/billing/pricing.py:152-257 | For every plan and number of members the price in cents, its parts, and the desired state, in numbers. |
| Pricing.SeatPlanConverges | backend/app/billing/seat_reconciliation.py:42-67 | Carrying out a seat plan leaves nothing to do, and it is billed at once if and only if the desired seats cost more. |
| Pricing.SeatPlanExactly | backend/app/billing/seat_reconciliation.py:38-67 | Desired seats are the members beyond 20; an update exactly when they differ from the observed ones, at once when added and with the next period when removed. |
| Entitlements.DodoStoredStatusIsFixed | backend/app/billing/dodo_webhook_service.py:75-101 | Every status a row can store reads back as itself through the Dodo map. |
| Entitlements.DodoSpellingsExactly | backend/app/billing/dodo_webhook_service.py:75-101 | Every Dodo status string is read as exactly the status it is listed under, anything not listed as incomplete; five spellings pay. |
| Entitlements.DodoNormalizationIsIdempotent | backend/app/billing/dodo_webhook_service.py:95-101 | What a Dodo status spells is stored under a spelling of the same status, which reads back as itself. |
| Entitlements.PaddleStoredStatusIsFixed | backend/app/billing/paddle_webhook_service.py:44-54 | A stored status reads back as itself through the Paddle map if and only if it is neither of the two statuses the map has no entry for. |
| Entitlements.PaddleSpellingsExactly | backend/app/billing/paddle_webhook_service.py:44-54 | Paddle's five words mean the five statuses, anything else incomplete; three pay. |
| PaddleStatuses.DeliveriesWriteExactly | backend/app/billing/paddle_webhook_service.py:147-209 | Those are exactly the statuses some Paddle event brings some row to. |
| PaddleStatuses.RereadingKeepsPaddleEntitlement | backend/app/billing/paddle_webhook_service.py:53-54 | After every run from Paddle rows with such statuses, re-reading the stored status of a Paddle row gives the same status and the same entitlement decision. |
| PaddleStatuses.RunKeepsWritable | backend/app/billing/paddle_webhook_service.py:147-211 | Every run, of deliveries and reconciliations of both providers, keeps Paddle rows at such statuses. |
| Entitlements.PaddleNormalizationIsIdempotent | backend/app/billing/paddle_webhook_service.py:53-54 | Paddle normalization is idempotent on every string and only yields such statuses. |
| Entitlements.StripeNormalizationIdempotentExactly | backend/app/billing/entitlements.py:48-64 | Stripe normalization is idempotent on a string if and only if it is not one of two spellings, and paid access never depends on applying it twice. |
| Entitlements.StripeSpellingsExactly | backend/app/billing/entitlements.py:48-64 | Stripe's eight words, two of which mean expired; anything else is incomplete; three pay. |
| Entitlements.RereadingKeepsEntitlement | backend/app/billing/dodo_webhook_service.py:75-101 | Re-reading the stored status of a Dodo row never changes the entitlement decision, which pays in exactly four statuses. |
| Entitlements.DecisionExactly | backend/app/billing/entitlements.py:98-150 | Paid access in exactly four statuses, management in those and when paused, the bought plan while there is access and Free otherwise, with the limits of the three plans in numbers. |
| Entitlements.PlansAreStrictlyOrdered | backend/app/billing/plans.py:60-115 | Every limit of Free is tighter than Pro's and of Pro than Team's; only Team has audit logs. |
| Routing.PilotOverrideIsTheOnlyDifference | backend/app/billing/provider_routing.py:69-123 | The pilot override is active if and only if it changes where a checkout goes; it changes neither another workspace nor the management of a subscription. |
| Routing.CheckoutGoesExactly | backend/app/billing/provider_routing.py:41-108 | Where a checkout goes for every setting, or which error it gives. |
| Routing.ManagementGoesExactly | backend/app/billing/provider_routing.py:111-123 | A subscription on file goes by its own provider, whatever the settings; without one management goes by the setting. |
| DodoEvents.LifecycleNamesAreSubscriptionNames | backend/app/billing/dodo_webhooks.py:154-169 | A lifecycle type only comes from a name in the subscription family. |
| DodoEvents.PaymentAndDunningAreNotLifecycle | backend/app/billing/dodo_webhooks.py:262-274 | Payment and dunning deliveries are never of a lifecycle type; a payment delivery carries no status, product or dates whatever its payload holds; their ids and time are the payload's. |
| DodoEvents.PayloadIsRead | backend/app/billing/dodo_webhooks.py:251-313 | What is read of a payload, by the family of its name, and what is ignored. |
| NamedEffects.NamesDecideTypes | backend/app/billing/dodo_webhooks.py:154-169 | For every event type, exactly which names have it; no Dodo name means a resumption. |
| NamedEffects.NamesDecideStatus | backend/app/billing/dodo_webhook_service.py:465-609 | The status of an existing row after a delivery, read off name and raw status alone: on a plan name what the payload's status spells, with every spelling listed, on the others the status the name stands for. |
| NamedEffects.NamesDecidePlan | backend/app/billing/dodo_webhook_service.py:402-417 | The plan changes exactly when a plan name comes with another plan in its metadata or, without one there, with the product configured for another plan; the seats change with it, to 20 and those asked for on Team and to none on Pro. |
| NamedEffects.NamesDecideColumns | backend/app/billing/dodo_webhook_service.py:471-609 | The other columns: a plan name brings the payload's subscription id, previous and next billing date, where present, into reference, period start and period end; a failure starts a grace period of whole days, a recovery ends it; only the cancellation by name clears the flag; provider, customer and interval never change. |
| NamedEffects.RowByNameIsUnique | backend/app/billing/dodo_webhook_service.py:465-620 | That description leaves one row possible. |
| NamedDeliveries.OvertakenExactly | backend/app/billing/dodo_webhook_service.py:362-463 | An event is out of date exactly when its payload's time is before that of a processed Dodo event sharing one of its ids or, when there is none, before the row's last write. |
| NamedDeliveries.DeliveryByName | backend/app/billing/dodo_webhook_service.py:110-230 | A delivery whose customer or subscription is known writes that row and no other, column by column as its payload says, unless it repeats a completed one or is overtaken, when the row stays. |
| NamedDeliveries.DeliveryDecidesAccess | backend/app/billing/dodo_webhook_service.py:465-609 | What the workspace may do after an accepted delivery, by name and raw status: a plan name gives access exactly with one of five spellings, a failure always, a payment if there was access or the row was incomplete, an ending never, with the Free limits and management left only to a paused customer. |
| NamedDeliveries.CreationIsNamed | backend/app/billing/dodo_webhook_service.py:262-343 | Which payloads may create a row, if and only if: seven names, a plan, a status and an existing workspace without a row in the metadata. |
| NamedDeliveries.CreationByName | backend/app/billing/dodo_webhook_service.py:262-343 | A delivery whose customer and subscription are unknown creates the row of the workspace it names, with the payload's ids, plan, spelled status and seats, or writes no row. |
| NamedDeliveries.LogRowByName | backend/app/billing/dodo_webhook_service.py:155-230 | The first delivery of an event adds exactly its row to the log, with the payload's time and ids, one attempt, and the status and category of that attempt. |
| NamedDeliveries.LaterLogRowByName | backend/app/billing/idempotency.py:101-117 | A later delivery keeps what was recorded and counts one more attempt with its status, or marks the repeat of a completed one. |
| NamedDeliveries.OutcomeByName | backend/app/billing/dodo_webhook_service.py:167-230 | What the service reports of a delivery, for every outcome if and only if: a repeat, an unknown name, a homeless lifecycle event, an exception. |
| NamedDeliveries.AuditByName | backend/app/billing/dodo_webhook_service.py:465-618 | The entries a delivery to a known row appends, with type, order and details, read off the change of the row. |
| NamedDeliveries.CreationAuditByName | backend/app/billing/dodo_webhook_service.py:345-354 | A creation appends one entry with plan, interval and seats; any other delivery to no row none. |
| AccessHistory.AccessIsGranted | backend/app/billing/dodo_webhook_service.py:465-609 | Over every run, a workspace that comes to have paid access got it from a step that can give it: a lifecycle delivery with a paying status, a delivery about a payment, or a reconciliation. |
| AccessHistory.EndingsLast | backend/app/billing/dodo_webhook_service.py:471-572 | A workspace whose row is paused, canceled, expired or incomplete stays without access, on the Free limits, through every run of other steps. |
| PaddleEvents.StatusComesFromSubscriptionEvents | backend/app/billing/paddle_webhooks.py:141-178 | Where an event type may set the row's status, status and reference are the subscription payload's own. |
| PaddleEvents.TransactionsNeverSetThePayloadStatus | backend/app/billing/paddle_webhooks.py:150-158 | A transaction event can only make a row past due or bring it back to active, whatever status its payload holds. |
| PaddleEffects.NamesDecideTypes | backend/app/billing/paddle_webhooks.py:110-124 | For every event type, exactly which Paddle names have it. |
| PaddleEffects.DeliveryByName | backend/app/billing/paddle_webhook_service.py:67-209 | A Paddle delivery to a known row writes it as name and payload say (status with every spelling listed, grace end, cancel flag, and nothing else but mark, version and time), unless it repeats a completed one or is older than the row's last write; any other delivery writes no row. |
| PaddleEffects.DeliveryDecidesAccess | backend/app/billing/paddle_webhook_service.py:147-209 | What the workspace may do after an accepted Paddle delivery, by name and raw status. |
| PaddleEffects.LogRowByName | backend/app/billing/paddle_webhook_service.py:67-108 | The first delivery of a Paddle event adds exactly its row to the log, processed, with the payload's time and ids; a raising one leaves nothing. |
| PaddleEffects.LaterLogRowByName | backend/app/billing/idempotency.py:101-117 | A later one counts one more attempt and is processed, or is marked a repeat. |
| PaddleEffects.OutcomeByName | backend/app/billing/paddle_webhook_service.py:86-108 | The same for Paddle. |
| PaddleEffects.AuditByName | backend/app/billing/paddle_webhook_service.py:126-224 | The entries a Paddle delivery appends, with type, order and details, read off the change of the row. |
| PaddleEffects.ReconciliationBySnapshot | backend/app/billing/reconciliation_service.py:46-123 | A Paddle reconciliation writes exactly when the row has a reference, the subscription is found and the customers agree: status as the snapshot spells it, its dates and flag, nothing else; the seat entry and the call for an update exactly when the seats beyond 20 differ. |
| PaddleEffects.RefusalBySnapshot | backend/app/billing/reconciliation_service.py:50-82 | Which of the three refusals is reported, if and only if. |
| DodoService.DodoWebhookRoute | backend/app/routers/dodo_webhook.py:65-79 | From payload to commit: whatever database writes fail, the route leaves the committed tables as they were or exactly one delivery further on, and nothing uncommitted; a known customer's row is then as the payload says; when another session's insert of the event comes first, the same of the tables that session committed. |
| DodoService.ProcessDodoWebhook | backend/app/billing/dodo_webhook_service.py:110-230 | Returning, it has done in the open transaction what the delivery specification states; raising its error, the failed attempt is undone and the failure already committed, so the later rollback changes nothing. |
| DodoService.Attempt | backend/app/billing/dodo_webhook_service.py:175-198 | The body of the try block ends, unless a write fails, in the tables and outcome of the specification. |
| DodoService.ApplyNormalizedEvent | backend/app/billing/dodo_webhook_service.py:420-463 | Lookup, creation, staleness check and update together have the specified effect and error category. |
| DodoService.UpdateSubscription | backend/app/billing/dodo_webhook_service.py:465-620 | The branch-by-branch assignments, flushes and audit entries leave exactly the field-by-field updated row and the specified entries in order. |
| DodoService.ApplyBranch | backend/app/billing/dodo_webhook_service.py:471-609 | Whichever branch is taken, the row object and the entries written so far are those the specification asks for, with nothing else touched. |
| DodoService.ApplyPlanEvent | backend/app/billing/dodo_webhook_service.py:481-556 | The created/updated branch leaves the specified plan, seats, reference and dates, the status the payload's spells, and one entry if plan or reference changed. |
| DodoService.ApplyCancellation | backend/app/billing/dodo_webhook_service.py:471-479 | The expiry and cancellation branches leave the specified row and entry. |
| DodoService.ApplyPaymentFailure | backend/app/billing/dodo_webhook_service.py:574-597 | The two payment-failure branches leave the row past due with a grace period and the specified entries. |
| DodoService.CreateSubscriptionFromHint | backend/app/billing/dodo_webhook_service.py:262-359 | A row is created exactly when all creation conditions hold, with the specified fields and activation entry; otherwise nothing is written. |
| PaddleService.PaddleWebhookRoute | backend/app/routers/paddle_webhook.py:57-71 | From payload to commit: the committed tables are one specified delivery further on exactly when the service returned, a known customer's row as the payload says; otherwise they are as before; when another session's insert of the event comes first, the same of the tables that session committed. |
| PaddleService.ProcessPaddleWebhook | backend/app/billing/paddle_webhook_service.py:67-108 | Returning, it has done what the Paddle specification states; it never commits anything itself. |
| PaddleService.UpdateSubscription | backend/app/billing/paddle_webhook_service.py:147-224 | The Paddle branches leave exactly the specified row and entries, with the status of the event's type. |
| PaddleService.ApplyNormalizedEvent | backend/app/billing/paddle_webhook_service.py:126-145 | Lookup, staleness check and update together have the specified effect; no row is ever created. |
| PaddleService.ReconcileWorkspaceSubscription | backend/app/billing/reconciliation_service.py:46-123 | Unless a write or the provider's seat update raises, it refuses, reports or writes row and entries as specified; the update is sent only where the specification asks for it. |
| PaddleService.ReconciliationRoute | backend/app/routers/billing.py:693-711 | Whatever raises, the committed tables are as they were or reconciled as a whole; the provider may have been sent the seat update in either case, and only when it was called for. |
| OperatorService.ReconcileFromDodo | backend/app/billing/dodo_webhook_service.py:723-943 | The checks in code order and the writes have, unless a write fails, the specified effect and outcome; nothing is committed. |
| OperatorService.ReconcileCommand | backend/scripts/dodo_live_cutover.py:742-772 | Whatever database writes fail, the command leaves the committed tables as they were, or reconciled as a whole with the reported outcome. |
| OperatorService.VerifyExisting | backend/app/billing/dodo_webhook_service.py:770-820 | The re-verification of the existing row refuses exactly as specified. |
| OperatorService.PrepareForLivePilot | backend/app/billing/dodo_webhook_service.py:1031-1113 | The preparation has, unless a write fails, the specified effect and outcome; nothing is committed. |
| OperatorService.PrepareCommand | backend/scripts/dodo_live_cutover.py:799-829 | The same for the preparation command. |
| Session.Session.CheckAndRecordPending | backend/app/billing/idempotency.py:58-98 | Returns the recorded row untouched or inserts a pending one; when the unique key refuses the insert, rolls back and returns the row the winner committed, or raises when there is none; any other failing write leaves the tables alone. |
| Session.Session.MarkProcessed | backend/app/billing/idempotency.py:101-105 | The row of the event, and no other, becomes processed with one more attempt and no error category. |
| Session.Session.MarkFailed | backend/app/billing/idempotency.py:108-112 | The row of the event, and no other, becomes failed with one more attempt and the category. |
| Session.Session.MarkDuplicateIgnored | backend/app/billing/idempotency.py:115-117 | The row of the event, and no other, becomes a duplicate, its attempt count unchanged. |
| Session.Session.RecordAuditEvent | backend/app/billing/audit.py:28-44 | Appends exactly one entry with filtered details and carries the row's pending changes along. |
| Session.Session.FindSubscription | backend/app/billing/dodo_webhook_service.py:233-245 | Returns an answer the two ordered queries may give. |
| Session.Session.LatestProcessedOccurredAt | backend/app/billing/dodo_webhook_service.py:375-399 | The two queries and the maximum of their answers give the latest time over both references. |
| Session.LatestSplits | backend/app/billing/dodo_webhook_service.py:382-399 | The baseline over both references is the later of the baselines over each. |
| RetryLoop.Request | backend/app/billing/dodo_client.py:183-213 | Against any script of responses: everything before the last response was worth retrying, the last was not or used up the budget and alone decides the outcome, and the delays are the header's or the doubling backoff. |
| RetryLoop.ExchangeIsUnique | backend/app/billing/dodo_client.py:183-213 | That contract leaves one possible outcome, number of sends and list of delays. |
| RetryLoop.FirstDecisiveResponseDecides | backend/app/billing/dodo_client.py:189-211 | The request ends at the first response not worth retrying, or the last of the budget. |
| RetryLoop.AnswersExactly | backend/app/billing/dodo_client.py:195-198 | The caller gets a body if and only if a readable success comes within the budget with only retried responses before it. |
| RetryLoop.SentAgainExactly | backend/app/billing/dodo_client.py:183-213 | The request is sent again after a response exactly when that and all before it were transient (five statuses with a usable Retry-After, or no connection) and the budget allows, after the header's duration or half a second doubled with every send. |
| RetryLoop.LastResponseDecides | backend/app/billing/dodo_client.py:131-153 | What the last response makes of the request, by its status. |
| RetryLoop.UntranslatedExactly | backend/app/billing/dodo_client.py:195-206 | An exception the client does not translate escapes if and only if, within the budget and after retried responses only, there comes another exception, a success that is not JSON, or a transient status with attempts left whose Retry-After is no duration. |
| RetryLoop.NonIdempotentIsSentOnce | backend/app/billing/dodo_client.py:186-186 | A non-idempotent request is sent exactly once and never waits. |
| RetryLoop.TransientErrorsUseTheBudget | backend/app/billing/dodo_client.py:199-206 | A transient status ends the request only when the budget is used up, except when its Retry-After is no duration, which raises untranslated. |
| RetryLoop.TotalBackoff | backend/app/billing/dodo_client.py:203-210 | Without Retry-After, after k sends the loop has slept 0.5 * (2^(k-1) - 1) seconds. |
| Signatures.VerifyDodoSignature | backend/app/billing/dodo_webhooks.py:82-147 | Which verdict is given, for every verdict: accepted if and only if secret, headers and time check out and a candidate matches. |
| Signatures.TimelyExactly | backend/app/billing/dodo_webhooks.py:115-121 | A timestamp is taken when it is an integer at most five minutes from now. |
| Signatures.ParseDodoSignatures | backend/app/billing/dodo_webhooks.py:133-139 | The loop collects the candidates of the parts of the header. |
| Signatures.CandidateExactly | backend/app/billing/dodo_webhooks.py:134-139 | The candidate of a part: without surrounding white space, what follows its first comma, or all of it; none for a blank part. |
| Signatures.DodoHeaderRoundTripsExactly | backend/app/billing/dodo_webhooks.py:133-139 | Parsing the space-joined list of `v1,` signatures returns exactly the printed ones if and only if each is non-empty, without a space and not ending in white space. |
| Signatures.DodoAcceptanceIsMembership | backend/app/billing/dodo_webhooks.py:141-145 | A header printed from clean ASCII signatures is accepted, all else checked, if and only if the expected value is among them. |
| Signatures.DodoAcceptanceIsMonotone | backend/app/billing/dodo_webhooks.py:130-145 | An accepted header stays accepted when anything is appended, or when ASCII candidates are prepended. |
| Signatures.NoCandidatesExactly | backend/app/billing/dodo_webhooks.py:141-142 | A header gives no candidate if and only if it is nothing but white space. |
| Signatures.MatchIsMonotone | backend/app/billing/dodo_webhooks.py:144-145 | Candidates after a match never undo it; candidates before it leave it standing if and only if they are ASCII. |
| Signatures.RaisesExactly | backend/app/billing/dodo_webhooks.py:144-145 | The comparison raises if and only if a candidate that is not ASCII comes before every occurrence of the expected value. |
| Signatures.VerifyPaddleSignature | backend/app/billing/paddle_webhooks.py:57-104 | Which verdict is given, for every verdict: accepted if and only if secret and header are there, the first timestamp is fresh and some signature matches. |
| Signatures.ParsePaddleHeader | backend/app/billing/paddle_webhooks.py:75-83 | The multimap the loop fills holds, for every key, its values in order. |
| Signatures.PairExactly | backend/app/billing/paddle_webhooks.py:75-83 | A part with an equals sign is the pair of what is before and after the first one, without surrounding white space. |
| Signatures.PaddleHeaderRoundTripsExactly | backend/app/billing/paddle_webhooks.py:75-87 | Parsing the printed header returns exactly the timestamp and signatures if and only if none holds a semicolon or has white space at an end. |
| Signatures.PaddleAcceptanceIsMembership | backend/app/billing/paddle_webhooks.py:96-102 | A printed header with ASCII signatures and a fresh timestamp is accepted if and only if the expected digest is among them. |
| Signatures.PaddleAcceptanceIsMonotone | backend/app/billing/paddle_webhooks.py:99-102 | Appending anything to an accepted header keeps it accepted. |
| Text.SplitUndoesJoin | backend/app/billing/dodo_webhooks.py:134-134 | Splitting a joined list of separator-free parts returns the list. |
| Text.JoinUndoesSplit | backend/app/billing/paddle_webhooks.py:76-76 | Joining the split parts returns the text, and no part holds the separator. |
| Text.StripExactly | backend/app/billing/dodo_webhooks.py:135-135 | Stripping takes away white space at both ends and nothing else. |
| Text.AsciiSpaces | backend/app/billing/dodo_webhooks.py:135-135 | The white space among ASCII characters: tab to carriage return, the four separators, and the blank. |
| Text.BeforeExactly | backend/scripts/dodo_live_cutover.py:247-247 | Strings are ordered by the first character in which they differ, a prefix first. |
| SyncRunMigration.SyncRunsTable.Upgrade | backend/alembic/versions/037_sync_runs_in_flight_uniqueness.py:45-75 | On every table the update is followed by an index that builds. |
| SyncRunMigration.ExactlyTheNewestSurvives | backend/alembic/versions/037_sync_runs_in_flight_uniqueness.py:50-67 | Every integration with runs in flight keeps exactly one, the latest by start and then id; one without gains none. |
| SyncRunMigration.OnlySupersededRunsChange | backend/alembic/versions/037_sync_runs_in_flight_uniqueness.py:50-67 | No row appears or disappears, and a row changes if and only if it was in flight and superseded within its integration. |
| SyncRunMigration.RowsAfterUpgrade | backend/alembic/versions/037_sync_runs_in_flight_uniqueness.py:50-67 | Row by row: a pending or running run outranked within its integration is closed now as failed with the message, and every other row stays as it is. |
| SyncRunMigration.UntouchedExactlyWhenClean | backend/alembic/versions/037_sync_runs_in_flight_uniqueness.py:50-75 | The update changes nothing if and only if the index would have built without it. |
| SyncRunMigration.UpgradeIsIdempotent | backend/alembic/versions/037_sync_runs_in_flight_uniqueness.py:50-67 | A second upgrade at any later time changes nothing. |

## Left out

- Concurrency of different events: `Concurrency` follows the workers of one Dodo event id under read-committed transactions, all reading one clock; `Overlap` two deliveries of different events of one customer that find its row, each a whole transaction after its reads. More than two, a creation among them, and operator commands are one after the other.
- Overlap.OverlapIsInTurnExactly: takes from the object-relational mapper that an update writes the columns whose value changed, the time of writing, and no others.
- Concurrency.WrittenTwiceExactly: does not follow the attempt counter and error category of the log row through an interleaving, because no step of a delivery reads them.
- DodoService.ProcessDodoWebhook: does not model a race lost by the second insert, the one after a failed attempt was rolled back, because a session on its own does not see when others commit; that race is part of the interleaving model in `Concurrency`.
- Signatures.VerifyDodoSignature: the MAC, the base64 decoding and the reading of an integer are parameters, the body is text that decodes and parses, so errors of the body are not modelled.
- Signatures.VerifyPaddleSignature: as for the Dodo header, the MAC and the reading of an integer are parameters.
- SyncRunMigration.SyncRunsTable.Upgrade: does not model how the database evaluates `DISTINCT ON`; the survivor is the row that comes first in the stated order.
- OperatorService.ReconcileFromDodo: does not model the HTTP client below the provider answer; an answer is a body, an empty body, a 404 or another error.
- DodoService.ProcessDodoWebhook: one reading of the clock serves a whole delivery, and a flush that changes a row stamps it with that reading.
- A cached object of a rolled-back session, commits of other sessions in the middle of a sequential delivery, and workspace deletion with its cascade.
- Columns no modelled code reads: `base_quantity`, `normalized_payload`, creation and receipt times, the audit entries' own times.
- Checking `grace_period_end` against the clock: the entitlement decision does not do it, so no bound on paid access is claimed.
- JSON payloads with fields of unexpected types, logging, the command line, the routers beyond commit and rollback, and HTTP headers.
- The provider adapters except the Dodo subscription snapshot, the Paddle client, readiness and catalog reports, settings parsing.
- Connectors, snapshots, diffs, risk rules, the other migrations, seed scripts, the browser extension and the frontend.
