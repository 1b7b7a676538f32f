/** Paddle deliveries: the fields read from a parsed payload and their normalized form. */
module PaddleEvents {
  import opened BillingTypes
  import opened PaddleProcessor

  /** A verified payload after JSON parsing; a field is `None` when it is absent, the time
      also when it does not parse. */
  datatype RawPaddleEvent = RawPaddleEvent(
    id: string,
    name: string,
    occurredAt: Option<Timestamp>,
    dataId: Option<string>,
    customerId: Option<string>,
    subscriptionId: Option<string>,
    status: Option<string>)

  function EventTypeOf(name: string): EventType {
    if name == "subscription.created" then SubscriptionCreated
    else if name == "subscription.updated" then SubscriptionUpdated
    else if name == "subscription.activated" then SubscriptionUpdated
    else if name == "subscription.canceled" then EventType.SubscriptionCanceled
    else if name == "subscription.paused" then SubscriptionPaused
    else if name == "subscription.resumed" then SubscriptionResumed
    else if name == "subscription.past_due" then PaymentPastDue
    else if name == "subscription.trialing" then SubscriptionUpdated
    else if name == "transaction.completed" then TransactionCompleted
    else if name == "transaction.paid" then TransactionCompleted
    else if name == "transaction.payment_failed" then TransactionFailed
    else if name == "transaction.past_due" then PaymentPastDue
    else if name == "customer.updated" then CustomerUpdated
    else Unknown
  }

  function NormalizePaddleEvent(raw: RawPaddleEvent): PaddleEvent {
    var isSubscription, isTransaction := "subscription." <= raw.name, "transaction." <= raw.name;
    PaddleEvent(
      raw.id,
      EventTypeOf(raw.name),
      raw.occurredAt,
      raw.customerId,
      if isSubscription then raw.dataId else raw.subscriptionId,
      if isTransaction then raw.dataId else None,
      if isSubscription then raw.status else None)
  }

  /** A type that sets the row's status comes only from a subscription name, so the status it
      sets, and the reference the row is found by, are the payload's own. */
  lemma StatusComesFromSubscriptionEvents(raw: RawPaddleEvent)
    requires SetsStatus(NormalizePaddleEvent(raw))
    ensures var e := NormalizePaddleEvent(raw);
            && e.subscriptionReference == raw.dataId && e.transactionReference == None
            && e.subscriptionStatus == raw.status
  {
    assert raw.name[0] == 's';
  }

  /** A transaction can only make a row past due or bring it back to active: whatever status
      its payload holds, it is never read. */
  lemma TransactionsNeverSetThePayloadStatus(raw: RawPaddleEvent, row: Subscription)
    requires "transaction." <= raw.name
    ensures var e := NormalizePaddleEvent(raw);
            && e.transactionReference == raw.dataId && e.subscriptionReference == raw.subscriptionId
            && NextPaddleStatus(row, e) in {row.status, PastDue, Active}
            && (NextPaddleStatus(row, e) == Active ==> row.status in {Active, PastDue, Incomplete})
  {
    assert raw.name[0] == 't';
  }
}
