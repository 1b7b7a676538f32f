/** What one Dodo delivery does to the database, stated field by field. */
module DodoProcessor {
  import opened BillingTypes
  import opened DodoEvents
  import opened Idempotency
  import Audit
  import Entitlements

  function ResolvePlan(e: DodoEvent, s: Settings): Option<PaidPlan> {
    if e.planHint.Some? then e.planHint
    else if !Truthy(e.productHint) then None
    else if e.productHint == s.proProductId then Some(Pro)
    else if e.productHint == s.teamProductId then Some(Team)
    else None
  }

  function SeatCount(e: DodoEvent): nat {
    if e.seatCountHint.Some? then e.seatCountHint.value else 0
  }

  function SeatsFor(plan: PaidPlan, additional: nat): int {
    if plan == Team then TEAM_INCLUDED_SEATS + additional else 0
  }

  function AdditionalSeatsFor(plan: PaidPlan, additional: nat): int {
    if plan == Team then additional else 0
  }

  // ----- Creating the first row of a workspace -----

  predicate CanCreate(t: Tables, e: DodoEvent) {
    && IsLifecycle(e.eventType)
    && e.workspaceHint.Some? && e.planHint.Some?
    && Truthy(e.subscriptionStatus)
    && e.workspaceHint.value in t.workspaces
    && e.workspaceHint.value !in t.subscriptions
  }

  function CreatedRow(e: DodoEvent, env: Env): Subscription
    requires e.planHint.Some? && e.subscriptionStatus.Some?
  {
    var plan := e.planHint.value;
    Subscription(
      Dodo, e.customerReference, e.subscriptionReference, plan, Month,
      Entitlements.NormalizeDodoStatus(e.subscriptionStatus.value),
      SeatsFor(plan, SeatCount(e)), AdditionalSeatsFor(plan, SeatCount(e)),
      None, None, false, None, Webhook(e.eventType), 0, env.now)
  }

  function ActivationEntry(w: WorkspaceId, row: Subscription): AuditEvent {
    Audit.Entry(w, SubscriptionActivated, Dodo,
                map[PlanIdKey := PlanDetail(row.planId), BillingIntervalKey := IntervalDetail(Month),
                    BillableSeatsKey := NumberDetail(row.billableSeats)])
  }

  // ----- Updating an existing row -----

  /** The events that re-derive plan, seats, reference and period dates. */
  predicate IsPlanEvent(e: DodoEvent) {
    !IsExpiry(e) && (e.eventType == SubscriptionCreated || e.eventType == SubscriptionUpdated)
  }

  predicate IsPaymentFailure(e: DodoEvent) {
    !IsExpiry(e) && (e.eventType == PaymentPastDue || e.eventType == TransactionFailed)
  }

  /** The events that write the row at all. */
  predicate Mutates(e: DodoEvent) {
    || IsExpiry(e) || IsPlanEvent(e) || IsPaymentFailure(e)
    || e.eventType == EventType.SubscriptionCanceled || e.eventType == SubscriptionPaused
    || e.eventType == TransactionCompleted
  }

  predicate Recovers(row: Subscription, e: DodoEvent) {
    !IsExpiry(e) && e.eventType == TransactionCompleted && (row.status == PastDue || row.status == Incomplete)
  }

  function NextStatus(row: Subscription, e: DodoEvent): Status {
    if IsExpiry(e) then Expired
    else if IsPlanEvent(e) && Truthy(e.subscriptionStatus)
    then Entitlements.NormalizeDodoStatus(e.subscriptionStatus.value)
    else if e.eventType == EventType.SubscriptionCanceled then Canceled
    else if e.eventType == SubscriptionPaused then Paused
    else if IsPaymentFailure(e) then PastDue
    else if Recovers(row, e) then Active
    else row.status
  }

  predicate ChangesPlan(row: Subscription, e: DodoEvent, s: Settings) {
    IsPlanEvent(e) && ResolvePlan(e, s).Some? && ResolvePlan(e, s).value != row.planId
  }

  predicate ChangesReference(row: Subscription, e: DodoEvent) {
    IsPlanEvent(e) && e.subscriptionReference.Some? && e.subscriptionReference != row.subscriptionReference
  }

  function NextReference(row: Subscription, e: DodoEvent): Option<string> {
    if IsPlanEvent(e) && e.subscriptionReference.Some? then e.subscriptionReference else row.subscriptionReference
  }

  function GraceEnd(env: Env): Option<Timestamp> {
    Some(env.now + env.settings.gracePeriodDays * SECONDS_PER_DAY)
  }

  function UpdatedRow(row: Subscription, e: DodoEvent, env: Env): Subscription {
    if !Mutates(e) then row else
      var replan := ChangesPlan(row, e, env.settings);
      var plan := if replan then ResolvePlan(e, env.settings).value else row.planId;
      row.(
        status := NextStatus(row, e),
        planId := plan,
        billableSeats := if replan then SeatsFor(plan, SeatCount(e)) else row.billableSeats,
        additionalSeatQuantity := if replan then AdditionalSeatsFor(plan, SeatCount(e)) else row.additionalSeatQuantity,
        subscriptionReference := NextReference(row, e),
        currentPeriodStart :=
          if IsPlanEvent(e) && e.periodStartHint.Some? then e.periodStartHint else row.currentPeriodStart,
        currentPeriodEnd := if IsPlanEvent(e) && e.periodEndHint.Some? then e.periodEndHint else row.currentPeriodEnd,
        cancelAtPeriodEnd := row.cancelAtPeriodEnd && (IsExpiry(e) || e.eventType != EventType.SubscriptionCanceled),
        gracePeriodEnd :=
          if IsPaymentFailure(e) then GraceEnd(env) else if Recovers(row, e) then None else row.gracePeriodEnd,
        lastProviderEvent := Webhook(e.eventType),
        version := row.version + 1,
        updatedAt := env.now)
  }

  /** The details of the entry that records a plan or reference change. */
  function PlanChangeDetails(row: Subscription, next: Subscription, e: DodoEvent, s: Settings)
    : map<DetailKey, DetailValue>
  {
    (if ChangesPlan(row, e, s)
     then map[PreviousPlanIdKey := PlanDetail(row.planId), NewPlanIdKey := PlanDetail(next.planId),
              BillableSeatsKey := NumberDetail(next.billableSeats)]
     else map[])
    + (if ChangesReference(row, e) then map[ReasonKey := ReasonDetail(ReferenceChanged)] else map[])
  }

  /** The entries specific to the kind of event. */
  function EventEntries(w: WorkspaceId, row: Subscription, next: Subscription, e: DodoEvent, env: Env)
    : seq<AuditEvent>
  {
    if IsExpiry(e) || e.eventType == EventType.SubscriptionCanceled then
      [Audit.Entry(w, AuditEventType.SubscriptionCanceled, Dodo, Audit.StatusDetails(row.status, next.status))]
    else if ChangesPlan(row, e, env.settings) || ChangesReference(row, e) then
      [Audit.Entry(w, SubscriptionChanged, Dodo, PlanChangeDetails(row, next, e, env.settings))]
    else if e.eventType == PaymentPastDue then
      [Audit.Entry(w, PaymentFailed, Dodo, map[ReasonKey := ReasonDetail(PaymentPastDueReason)]),
       Audit.Entry(w, GracePeriodStarted, Dodo, map[GracePeriodEndKey := TimeDetail(GraceEnd(env))])]
    else if e.eventType == TransactionFailed then
      [Audit.Entry(w, PaymentFailed, Dodo, map[ReasonKey := ReasonDetail(TransactionFailedReason)])]
    else []
  }

  function StatusEntry(w: WorkspaceId, p: Provider, before: Status, after: Status): seq<AuditEvent> {
    if before == after then [] else [Audit.Entry(w, SubscriptionChanged, p, Audit.StatusDetails(before, after))]
  }

  function StaleEntry(w: WorkspaceId, p: Provider, t: EventType): AuditEvent {
    Audit.Entry(w, WebhookDuplicateIgnored, p,
                map[ReasonKey := ReasonDetail(StaleEventReason), EventTypeKey := EventDetail(t)])
  }

  predicate Outdated(t: Tables, e: DodoEvent, row: Subscription) {
    IsStale(e.occurredAt, row.updatedAt,
            LatestProcessed(t.log, Dodo, e.subscriptionReference, e.customerReference, e.externalEventId))
  }

  /** The database after the event was applied to the row the lookup found, and the category
      under which an event without a home is reported. */
  function Apply(t: Tables, e: DodoEvent, env: Env, found: Option<WorkspaceId>): (Tables, Option<ErrorCategory>)
    requires found.Some? ==> found.value in t.subscriptions
  {
    match found
    case None =>
      if CanCreate(t, e) then
        var w, row := e.workspaceHint.value, CreatedRow(e, env);
        (t.(subscriptions := t.subscriptions[w := row], audit := t.audit + [ActivationEntry(w, row)]), None)
      else (t, if IsLifecycle(e.eventType) then Some(UnknownReference) else None)
    case Some(w) =>
      var row := t.subscriptions[w];
      if Outdated(t, e, row) then (t.(audit := t.audit + [StaleEntry(w, Dodo, e.eventType)]), None)
      else
        var next := UpdatedRow(row, e, env);
        (t.(subscriptions := t.subscriptions[w := next],
            audit := t.audit + EventEntries(w, row, next, e, env) + StatusEntry(w, Dodo, row.status, next.status)),
         None)
  }

  // ----- Processing a delivery -----

  datatype Outcome = Delivered | Duplicate | Acknowledged | Unresolved | Raised

  function Key(e: DodoEvent): EventKey {
    EventKey(Dodo, e.externalEventId)
  }

  function FreshRow(e: DodoEvent): WebhookRow {
    PendingRow(e.eventType, e.occurredAt, e.customerReference, e.subscriptionReference, e.transactionReference)
  }

  function Begin(t: Tables, e: DodoEvent): (r: Tables)
    ensures Key(e) in r.log
  {
    t.(log := RecordPending(t.log, Key(e), FreshRow(e)))
  }

  predicate IsDuplicate(t: Tables, e: DodoEvent) {
    Key(e) in t.log && IsSettled(t.log[Key(e)].processingStatus)
  }

  function SetRow(t: Tables, key: EventKey, row: WebhookRow): Tables {
    t.(log := t.log[key := row])
  }

  function FailedAttempt(t: Tables, e: DodoEvent, category: ErrorCategory): Tables {
    var begun := Begin(t, e);
    SetRow(begun, Key(e), MarkedFailed(begun.log[Key(e)], category))
  }

  /** Record how the application of an event ended. */
  function Conclude(applied: (Tables, Option<ErrorCategory>), key: EventKey, pending: WebhookRow): (Tables, Outcome) {
    match applied.1
    case Some(c) => (SetRow(applied.0, key, MarkedFailed(pending, c)), Unresolved)
    case None => (SetRow(applied.0, key, MarkedProcessed(pending)), Delivered)
  }

  /** The database and the outcome after one delivery. `raised` says whether the attempt
      raised an exception; everything it wrote is then rolled back and the failure recorded. */
  function Process(t: Tables, e: DodoEvent, env: Env, found: Option<WorkspaceId>, raised: bool): (Tables, Outcome)
    requires found.Some? ==> found.value in t.subscriptions
  {
    var begun := Begin(t, e);
    var pending := begun.log[Key(e)];
    if IsDuplicate(t, e) then (SetRow(begun, Key(e), MarkedDuplicate(pending)), Duplicate)
    else if raised then (FailedAttempt(t, e, Unexpected), Raised)
    else if e.eventType == Unknown then (SetRow(begun, Key(e), MarkedProcessed(pending)), Acknowledged)
    else Conclude(Apply(begun, e, env, found), Key(e), pending)
  }

  function After(t: Tables, e: DodoEvent, env: Env, found: Option<WorkspaceId>, raised: bool): Tables
    requires found.Some? ==> found.value in t.subscriptions
  {
    Process(t, e, env, found, raised).0
  }
}
