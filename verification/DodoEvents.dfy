/** Dodo deliveries: the fields read from a parsed payload and their normalized form. */
module DodoEvents {
  import opened BillingTypes

  /** A verified payload after JSON parsing. A field is `None` when it is absent; dates, the
      workspace id and the seat count are `None` also when they do not parse. */
  datatype RawDodoEvent = RawDodoEvent(
    name: string,
    timestamp: Option<Timestamp>,
    customerId: Option<string>,
    subscriptionId: Option<string>,
    paymentId: Option<string>,
    status: Option<string>,
    productId: Option<string>,
    previousBillingDate: Option<Timestamp>,
    nextBillingDate: Option<Timestamp>,
    metadataWorkspace: Option<WorkspaceId>,
    metadataPlan: Option<string>,
    metadataSeats: Option<int>)

  datatype DodoEvent = DodoEvent(
    externalEventId: string,
    eventType: EventType,
    rawEventName: string,
    occurredAt: Option<Timestamp>,
    customerReference: Option<string>,
    subscriptionReference: Option<string>,
    transactionReference: Option<string>,
    subscriptionStatus: Option<string>,
    workspaceHint: Option<WorkspaceId>,
    planHint: Option<PaidPlan>,
    seatCountHint: Option<nat>,
    productHint: Option<string>,
    periodStartHint: Option<Timestamp>,
    periodEndHint: Option<Timestamp>)

  const EXPIRED_EVENT := "subscription.expired"

  function EventTypeOf(name: string): EventType {
    if name == "subscription.active" then SubscriptionCreated
    else if name == "subscription.renewed" then SubscriptionUpdated
    else if name == "subscription.updated" then SubscriptionUpdated
    else if name == "subscription.plan_changed" then SubscriptionUpdated
    else if name == "subscription.on_hold" then PaymentPastDue
    else if name == "subscription.paused" then SubscriptionPaused
    else if name == "subscription.cancelled" then EventType.SubscriptionCanceled
    else if name == "subscription.failed" then TransactionFailed
    else if name == EXPIRED_EVENT then EventType.SubscriptionCanceled
    else if name == "subscription.update_payment_method" then CustomerUpdated
    else if name == "payment.succeeded" then TransactionCompleted
    else if name == "payment.failed" then TransactionFailed
    else if name == "dunning.started" then PaymentPastDue
    else if name == "dunning.recovered" then TransactionCompleted
    else Unknown
  }

  function ParsePlan(raw: Option<string>): Option<PaidPlan> {
    if raw == Some("pro") then Some(Pro)
    else if raw == Some("team") then Some(Team)
    else None
  }

  function ParseSeatCount(raw: Option<int>): Option<nat> {
    if raw.Some? && raw.value >= 0 then Some(raw.value) else None
  }

  predicate IsSubscriptionName(name: string) {
    "subscription." <= name || "dunning." <= name
  }

  predicate IsPaymentName(name: string) {
    "payment." <= name
  }

  function NormalizeDodoEvent(raw: RawDodoEvent, externalEventId: string): DodoEvent {
    var sub := IsSubscriptionName(raw.name);
    DodoEvent(
      externalEventId,
      EventTypeOf(raw.name),
      raw.name,
      raw.timestamp,
      raw.customerId,
      raw.subscriptionId,
      if IsPaymentName(raw.name) then raw.paymentId else None,
      if sub then raw.status else None,
      raw.metadataWorkspace,
      ParsePlan(raw.metadataPlan),
      ParseSeatCount(raw.metadataSeats),
      if sub then raw.productId else None,
      if sub then raw.previousBillingDate else None,
      if sub then raw.nextBillingDate else None)
  }

  /** The only event types allowed to create a workspace's first row. */
  predicate IsLifecycle(t: EventType) {
    t == SubscriptionCreated || t == SubscriptionUpdated
    || t == EventType.SubscriptionCanceled || t == SubscriptionPaused
  }

  predicate IsExpiry(e: DodoEvent) {
    e.rawEventName == EXPIRED_EVENT
  }

  /** A lifecycle type only ever comes from a name in the subscription family, so its status,
      product and dates are read from the payload. */
  lemma LifecycleNamesAreSubscriptionNames(name: string)
    requires IsLifecycle(EventTypeOf(name))
    ensures "subscription." <= name && IsSubscriptionName(name)
  {
  }

  /** A payment or dunning delivery never has a lifecycle type; a payment delivery carries
      no subscription status, product or dates, whatever its payload says. */
  lemma PaymentAndDunningAreNotLifecycle(raw: RawDodoEvent, id: string)
    requires IsPaymentName(raw.name) || "dunning." <= raw.name
    ensures var e := NormalizeDodoEvent(raw, id);
            && !IsLifecycle(e.eventType)
            && !IsExpiry(e)
            && (IsPaymentName(raw.name) ==>
                  e.subscriptionStatus == None && e.productHint == None
                  && e.periodStartHint == None && e.periodEndHint == None
                  && e.transactionReference == raw.paymentId)
            && e.customerReference == raw.customerId && e.subscriptionReference == raw.subscriptionId
            && e.occurredAt == raw.timestamp && e.externalEventId == id
  {
    if IsPaymentName(raw.name) {
      assert raw.name[0] == 'p';
    } else {
      assert raw.name[0] == 'd';
    }
  }

  /** What is read of a payload: status, product and dates on the subscription and dunning
      names only, the payment's id on the payment names only, a seat count when it is not
      negative, a plan when it is one of two, and everything else as it is. */
  lemma PayloadIsRead(raw: RawDodoEvent, id: string)
    ensures var e := NormalizeDodoEvent(raw, id);
            && (if "subscription." <= raw.name || "dunning." <= raw.name
                then (e.subscriptionStatus, e.productHint, e.periodStartHint, e.periodEndHint)
                     == (raw.status, raw.productId, raw.previousBillingDate, raw.nextBillingDate)
                else e.subscriptionStatus == None && e.productHint == None
                     && e.periodStartHint == None && e.periodEndHint == None)
            && e.transactionReference == (if "payment." <= raw.name then raw.paymentId else None)
            && (forall n: nat :: e.seatCountHint == Some(n) <==> raw.metadataSeats == Some(n))
            && (e.planHint == Some(Pro) <==> raw.metadataPlan == Some("pro"))
            && (e.planHint == Some(Team) <==> raw.metadataPlan == Some("team"))
            && (e.workspaceHint, e.customerReference, e.subscriptionReference, e.occurredAt, e.externalEventId)
               == (raw.metadataWorkspace, raw.customerId, raw.subscriptionId, raw.timestamp, id)
  {
  }
}
