/** What one Paddle delivery, and one Paddle reconciliation, do to the database. */
module PaddleProcessor {
  import opened BillingTypes
  import opened Idempotency
  import opened DodoProcessor
  import Audit
  import Entitlements
  import Pricing

  datatype PaddleEvent = PaddleEvent(
    externalEventId: string,
    eventType: EventType,
    occurredAt: Option<Timestamp>,
    customerReference: Option<string>,
    subscriptionReference: Option<string>,
    transactionReference: Option<string>,
    subscriptionStatus: Option<string>)

  predicate SetsStatus(e: PaddleEvent) {
    e.eventType == SubscriptionCreated || e.eventType == SubscriptionUpdated || e.eventType == SubscriptionResumed
  }

  predicate Fails(e: PaddleEvent) {
    e.eventType == PaymentPastDue || e.eventType == TransactionFailed
  }

  predicate Recovered(row: Subscription, e: PaddleEvent) {
    e.eventType == TransactionCompleted && (row.status == PastDue || row.status == Incomplete)
  }

  function NextPaddleStatus(row: Subscription, e: PaddleEvent): Status {
    if SetsStatus(e) && Truthy(e.subscriptionStatus) then Entitlements.NormalizePaddleStatus(e.subscriptionStatus.value)
    else if e.eventType == EventType.SubscriptionCanceled then Canceled
    else if e.eventType == SubscriptionPaused then Paused
    else if Fails(e) then PastDue
    else if Recovered(row, e) then Active
    else row.status
  }

  function UpdatedPaddleRow(row: Subscription, e: PaddleEvent, env: Env): Subscription {
    if e.eventType == CustomerUpdated || e.eventType == Unknown then row
    else row.(
      status := NextPaddleStatus(row, e),
      cancelAtPeriodEnd := row.cancelAtPeriodEnd && e.eventType != EventType.SubscriptionCanceled,
      gracePeriodEnd := if Fails(e) then GraceEnd(env) else if Recovered(row, e) then None else row.gracePeriodEnd,
      lastProviderEvent := Webhook(e.eventType),
      version := row.version + 1,
      updatedAt := env.now)
  }

  function PaddleEntries(w: WorkspaceId, row: Subscription, next: Subscription, e: PaddleEvent, env: Env)
    : seq<AuditEvent>
  {
    if e.eventType == EventType.SubscriptionCanceled then
      [Audit.Entry(w, AuditEventType.SubscriptionCanceled, Paddle, Audit.StatusDetails(row.status, next.status))]
    else if e.eventType == PaymentPastDue then
      [Audit.Entry(w, PaymentFailed, Paddle, map[ReasonKey := ReasonDetail(PaymentPastDueReason)]),
       Audit.Entry(w, GracePeriodStarted, Paddle, map[GracePeriodEndKey := TimeDetail(GraceEnd(env))])]
    else if e.eventType == TransactionFailed then
      [Audit.Entry(w, PaymentFailed, Paddle, map[ReasonKey := ReasonDetail(TransactionFailedReason)])]
    else []
  }

  /** A Paddle event never creates a row, and its only staleness baseline is the row's
      own write time. */
  function ApplyPaddle(t: Tables, e: PaddleEvent, env: Env, found: Option<WorkspaceId>): Tables
    requires found.Some? ==> found.value in t.subscriptions
  {
    match found
    case None => t
    case Some(w) =>
      var row := t.subscriptions[w];
      if IsStale(e.occurredAt, row.updatedAt, None) then t.(audit := t.audit + [StaleEntry(w, Paddle, e.eventType)])
      else
        var next := UpdatedPaddleRow(row, e, env);
        t.(subscriptions := t.subscriptions[w := next],
           audit := t.audit + PaddleEntries(w, row, next, e, env) + StatusEntry(w, Paddle, row.status, next.status))
  }

  function PaddleKey(e: PaddleEvent): EventKey {
    EventKey(Paddle, e.externalEventId)
  }

  function BeginPaddle(t: Tables, e: PaddleEvent): (r: Tables)
    ensures PaddleKey(e) in r.log
  {
    t.(log := RecordPending(t.log, PaddleKey(e),
                            PendingRow(e.eventType, e.occurredAt, e.customerReference, e.subscriptionReference,
                                       e.transactionReference)))
  }

  /** When the attempt raises, the router rolls back everything, the failed mark included. */
  function ProcessPaddle(t: Tables, e: PaddleEvent, env: Env, found: Option<WorkspaceId>, raised: bool)
    : (Tables, Outcome)
    requires found.Some? ==> found.value in t.subscriptions
  {
    var begun := BeginPaddle(t, e);
    var pending := begun.log[PaddleKey(e)];
    if IsSettled(pending.processingStatus) then (SetRow(begun, PaddleKey(e), MarkedDuplicate(pending)), Duplicate)
    else if raised then (t, Raised)
    else if e.eventType == Unknown then (SetRow(begun, PaddleKey(e), MarkedProcessed(pending)), Acknowledged)
    else (SetRow(ApplyPaddle(begun, e, env, found), PaddleKey(e), MarkedProcessed(pending)), Delivered)
  }

  function AfterPaddle(t: Tables, e: PaddleEvent, env: Env, found: Option<WorkspaceId>, raised: bool): Tables
    requires found.Some? ==> found.value in t.subscriptions
  {
    ProcessPaddle(t, e, env, found, raised).0
  }

  // ----- Reconciliation against the live Paddle subscription -----

  datatype PaddleSnapshot = PaddleSnapshot(
    customerReference: string,
    status: string,
    billableSeats: int,
    currentPeriodStart: Option<Timestamp>,
    currentPeriodEnd: Option<Timestamp>,
    cancelAtPeriodEnd: bool)

  datatype PaddleReconciliation =
    | NoSubscriptionOnFile | SubscriptionNotFound | CustomerMismatch | Reconciled(seatUpdate: bool)

  function ReconciledPaddleRow(row: Subscription, s: PaddleSnapshot, env: Env): Subscription {
    row.(status := Entitlements.NormalizePaddleStatus(s.status),
         currentPeriodStart := s.currentPeriodStart,
         currentPeriodEnd := s.currentPeriodEnd,
         cancelAtPeriodEnd := s.cancelAtPeriodEnd,
         version := row.version + 1,
         updatedAt := env.now)
  }

  function SeatPlan(s: PaddleSnapshot, members: nat): Pricing.SeatReconciliationPlan {
    Pricing.PlanSeatReconciliation(members, Max(0, s.billableSeats - 20))
  }

  function ReconciliationEntries(w: WorkspaceId, row: Subscription, s: PaddleSnapshot, members: nat, env: Env)
    : seq<AuditEvent>
  {
    (if SeatPlan(s, members).needsUpdate
     then [Audit.Entry(w, SeatCountChanged, Paddle,
                       map[ReasonKey := ReasonDetail(SeatReconciliation), BillableSeatsKey := NumberDetail(members)])]
     else [])
    + [Audit.Entry(w, ProviderReconciliation, Paddle,
                   Audit.StatusDetails(row.status, ReconciledPaddleRow(row, s, env).status))]
  }

  /** `snapshot` is what the provider answered for the stored reference. */
  function ReconcilePaddle(t: Tables, w: WorkspaceId, snapshot: Option<PaddleSnapshot>, members: nat, env: Env)
    : (Tables, PaddleReconciliation)
  {
    if w !in t.subscriptions || t.subscriptions[w].provider != Paddle
       || !Truthy(t.subscriptions[w].subscriptionReference)
    then (t, NoSubscriptionOnFile)
    else if snapshot.None? then (t, SubscriptionNotFound)
    else
      var row, s := t.subscriptions[w], snapshot.value;
      if Truthy(row.customerReference) && s.customerReference != ""
         && row.customerReference != Some(s.customerReference)
      then (t, CustomerMismatch)
      else
        var next := ReconciledPaddleRow(row, s, env);
        (t.(subscriptions := t.subscriptions[w := next],
            audit := t.audit + ReconciliationEntries(w, row, s, members, env)),
         Reconciled(SeatPlan(s, members).needsUpdate))
  }
}
