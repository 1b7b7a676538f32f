/** The values of the commercial billing domain: its bounded enumerations, the rows of
    the three tables the webhook services write, and the database state they make up. */
module BillingTypes {

  datatype Option<+T> = None | Some(value: T)

  datatype Result<+T, +E> = Success(value: T) | Failure(error: E) {
    predicate IsFailure() { Failure? }

    function PropagateFailure<U>(): (r: Result<U, E>)
      requires Failure?
    {
      Failure(error)
    }

    function Extract(): T
      requires Success?
    {
      value
    }
  }

  /** What a database write reports; `Fail` stands for any exception the write raises. */
  datatype WriteOutcome = Pass | Fail {
    predicate IsFailure() { Fail? }

    function PropagateFailure(): WriteOutcome
      requires Fail?
    {
      this
    }
  }

  type WorkspaceId = nat
  type Timestamp = int

  datatype Provider = Stripe | Paddle | Dodo
  datatype PlanId = Free | Pro | Team
  type PaidPlan = p: PlanId | p != Free witness Pro
  datatype BillingInterval = Month | Year

  datatype Status =
    | Trialing | Active | PastDue | GracePeriod | Paused | Canceled | Expired | Incomplete

  datatype EventType =
    | SubscriptionCreated | SubscriptionUpdated | SubscriptionCanceled | SubscriptionPaused
    | SubscriptionResumed | TransactionCompleted | TransactionFailed | PaymentPastDue
    | CustomerUpdated | Unknown

  datatype ProcessingStatus = Pending | Processed | Failed | DuplicateIgnored

  datatype ErrorCategory =
    | NoError | SignatureInvalid | UnknownReference | StaleEvent | Transient | Unexpected

  /** `last_provider_event`: an event type, or the mark an operator command leaves. */
  datatype LastEvent =
    | NoEvent | Webhook(eventType: EventType) | ReconciledFromDodo | PreparedForLiveCutover

  /** One row of `commercial_subscriptions`; its workspace is the key of the table. */
  datatype Subscription = Subscription(
    provider: Provider,
    customerReference: Option<string>,
    subscriptionReference: Option<string>,
    planId: PlanId,
    billingInterval: BillingInterval,
    status: Status,
    billableSeats: int,
    additionalSeatQuantity: int,
    currentPeriodStart: Option<Timestamp>,
    currentPeriodEnd: Option<Timestamp>,
    cancelAtPeriodEnd: bool,
    gracePeriodEnd: Option<Timestamp>,
    lastProviderEvent: LastEvent,
    version: nat,
    updatedAt: Timestamp)

  /** The idempotency key of the webhook log. */
  datatype EventKey = EventKey(provider: Provider, externalEventId: string)

  /** One row of `commercial_webhook_events`. */
  datatype WebhookRow = WebhookRow(
    eventType: EventType,
    occurredAt: Option<Timestamp>,
    customerReference: Option<string>,
    subscriptionReference: Option<string>,
    transactionReference: Option<string>,
    processingStatus: ProcessingStatus,
    attemptCount: nat,
    errorCategory: ErrorCategory)

  datatype AuditEventType =
    | CheckoutCreated | SubscriptionActivated | SubscriptionChanged | SeatCountChanged
    | PaymentFailed | GracePeriodStarted | SubscriptionCanceled | EntitlementChanged
    | ProviderReconciliation | WebhookDuplicateIgnored | PilotOverrideApplied

  /** A key of an audit entry's details: one on the allowlist, or any other name. */
  datatype DetailKey =
    | PlanIdKey | BillingIntervalKey | BillableSeatsKey | PreviousStatusKey | NewStatusKey
    | PreviousPlanIdKey | NewPlanIdKey | ReasonKey | GracePeriodEndKey | ExternalEventIdKey
    | EventTypeKey | Unlisted(name: string)

  datatype DetailValue =
    | StatusDetail(status: Status) | PlanDetail(plan: PlanId) | IntervalDetail(interval: BillingInterval)
    | NumberDetail(number: int) | TimeDetail(time: Option<Timestamp>) | EventDetail(event: EventType)
    | ReasonDetail(reason: Reason)

  datatype Reason =
    | StaleEventReason | ReferenceChanged | PaymentPastDueReason | TransactionFailedReason
    | SeatReconciliation
    | ReplacedObsolete(previousSubscription: Option<string>)
    | PreparedForPilot(previousTestSubscription: Option<string>, previousCustomer: Option<string>)

  /** One row of `commercial_audit_events`. */
  datatype AuditEvent = AuditEvent(
    workspace: WorkspaceId,
    eventType: AuditEventType,
    provider: Option<Provider>,
    details: map<DetailKey, DetailValue>)

  /** The database. Keying `subscriptions` by workspace is the unique constraint on
      `workspace_id`; keying `log` by (provider, id) is the idempotency constraint. */
  datatype Tables = Tables(
    workspaces: set<WorkspaceId>,
    subscriptions: map<WorkspaceId, Subscription>,
    log: map<EventKey, WebhookRow>,
    audit: seq<AuditEvent>)

  datatype DodoEnvironment = TestMode | LiveMode | NotConfigured

  /** The settings the billing code reads. */
  datatype Settings = Settings(
    billingProvider: string,
    dodoEnvironment: DodoEnvironment,
    dodoConfigured: bool,
    proProductId: Option<string>,
    teamProductId: Option<string>,
    teamSeatAddonId: Option<string>,
    pilotWorkspace: Option<WorkspaceId>,
    gracePeriodDays: int)

  /** What one step reads from outside the database. */
  datatype Env = Env(now: Timestamp, settings: Settings)

  const TEAM_INCLUDED_SEATS := 20
  const SECONDS_PER_DAY := 86400

  /** Python truthiness of an optional string. */
  predicate Truthy(reference: Option<string>) {
    reference.Some? && reference.value != ""
  }

  function Max(a: int, b: int): int {
    if a < b then b else a
  }
}
