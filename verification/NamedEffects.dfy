/** From the name of a Dodo delivery to its effect: what the event map and the branches of
    the processor amount to together. */
module NamedEffects {
  import opened BillingTypes
  import opened DodoEvents
  import opened DodoProcessor
  import opened Entitlements

  const PLAN_NAMES: set<string> := {"subscription.active", "subscription.renewed", "subscription.updated",
                                    "subscription.plan_changed"}
  const DUE_NAMES: set<string> := {"subscription.on_hold", "subscription.failed", "payment.failed", "dunning.started"}
  const PAID_NAMES: set<string> := {"payment.succeeded", "dunning.recovered"}
  const ENDING_NAMES: set<string> := {"subscription.paused", "subscription.cancelled", "subscription.expired"}

  predicate IsKnown(name: string) {
    name in PLAN_NAMES || name in DUE_NAMES || name in PAID_NAMES || name in ENDING_NAMES
    || name == "subscription.update_payment_method"
  }

  /** Which names have which type, for every type; no Dodo name means a resumption. */
  lemma NamesDecideTypes(name: string)
    ensures EventTypeOf(name) == SubscriptionCreated <==> name == "subscription.active"
    ensures EventTypeOf(name) == SubscriptionUpdated
            <==> name in {"subscription.renewed", "subscription.updated", "subscription.plan_changed"}
    ensures EventTypeOf(name) == EventType.SubscriptionCanceled
            <==> name in {"subscription.cancelled", "subscription.expired"}
    ensures EventTypeOf(name) == SubscriptionPaused <==> name == "subscription.paused"
    ensures EventTypeOf(name) == PaymentPastDue <==> name in {"subscription.on_hold", "dunning.started"}
    ensures EventTypeOf(name) == TransactionFailed <==> name in {"subscription.failed", "payment.failed"}
    ensures EventTypeOf(name) == TransactionCompleted <==> name in {"payment.succeeded", "dunning.recovered"}
    ensures EventTypeOf(name) == CustomerUpdated <==> name == "subscription.update_payment_method"
    ensures EventTypeOf(name) == Unknown <==> !IsKnown(name)
    ensures EventTypeOf(name) != SubscriptionResumed
  {
    NamesDiffer();
  }

  lemma NamesDiffer()
    ensures "subscription.cancelled" != "subscription.expired" && "subscription.on_hold" != "subscription.expired"
    ensures "subscription.on_hold" != "subscription.renewed" && "subscription.on_hold" != "subscription.updated"
    ensures "subscription.updated" != "subscription.renewed" && "subscription.updated" != "subscription.expired"
    ensures "subscription.renewed" != "subscription.expired"
    ensures "subscription.plan_changed" != "subscription.cancelled"
    ensures "subscription.failed" != "subscription.paused" && "subscription.failed" != "subscription.active"
    ensures "subscription.paused" != "subscription.active"
  {
    assert "subscription.on_hold"[13] == 'o' && "subscription.updated"[13] == 'u' && "subscription.renewed"[13] == 'r';
    assert "subscription.failed"[13] == 'f' && "subscription.paused"[13] == 'p' && "subscription.active"[13] == 'a';
  }

  predicate Writes(name: string) {
    name in PLAN_NAMES || name in DUE_NAMES || name in PAID_NAMES || name in ENDING_NAMES
  }

  lemma NamesDecideFamilies(name: string)
    ensures name in PLAN_NAMES <==> EventTypeOf(name) == SubscriptionCreated || EventTypeOf(name) == SubscriptionUpdated
    ensures name in DUE_NAMES <==> EventTypeOf(name) == PaymentPastDue || EventTypeOf(name) == TransactionFailed
    ensures name in PAID_NAMES <==> EventTypeOf(name) == TransactionCompleted
    ensures name in ENDING_NAMES
            <==> EventTypeOf(name) == SubscriptionPaused || EventTypeOf(name) == EventType.SubscriptionCanceled
    ensures name == EXPIRED_EVENT <==> name == "subscription.expired"
  {
    NamesDecideTypes(name);
  }

  /** The branch of the processor a delivery takes, by its name. */
  lemma NamesDecideKinds(raw: RawDodoEvent, id: string)
    ensures var e := NormalizeDodoEvent(raw, id);
            && (IsPlanEvent(e) <==> raw.name in PLAN_NAMES)
            && (IsPaymentFailure(e) <==> raw.name in DUE_NAMES)
            && (e.eventType == TransactionCompleted <==> raw.name in PAID_NAMES)
            && (e.eventType == EventType.SubscriptionCanceled
                <==> raw.name == "subscription.cancelled" || raw.name == "subscription.expired")
            && (e.eventType == SubscriptionPaused <==> raw.name == "subscription.paused")
            && (IsExpiry(e) <==> raw.name == "subscription.expired")
            && (IsLifecycle(e.eventType) <==> raw.name in PLAN_NAMES + ENDING_NAMES)
            && (Mutates(e) <==> Writes(raw.name))
  {
    NamesDecideFamilies(raw.name);
    NamesDecideTypes(raw.name);
  }

  // ----- The row of a known customer -----

  /** The status of the row after a delivery: on a plan name what the payload's status spells,
      past due on the failure names, active on the payment names if it was past due or
      incomplete, and on the ending names what they say. */
  predicate StatusByName(raw: RawDodoEvent, before: Status, after: Status) {
    if raw.name in PLAN_NAMES && Truthy(raw.status) then DodoSpelling(raw.status.value, after)
    else if raw.name in DUE_NAMES then after == PastDue
    else if raw.name in PAID_NAMES && (before == PastDue || before == Incomplete) then after == Active
    else if raw.name == "subscription.paused" then after == Paused
    else if raw.name == "subscription.cancelled" then after == Canceled
    else if raw.name == "subscription.expired" then after == Expired
    else after == before
  }

  lemma NamesDecideStatus(raw: RawDodoEvent, id: string, row: Subscription, env: Env)
    ensures StatusByName(raw, row.status, UpdatedRow(row, NormalizeDodoEvent(raw, id), env).status)
  {
    NamesDecideKinds(raw, id);
    NamesAreApart(raw.name);
    if Truthy(raw.status) {
      DodoSpellingsExactly(raw.status.value, NormalizeDodoStatus(raw.status.value));
    }
  }

  lemma NamesAreApart(name: string)
    ensures name in PLAN_NAMES ==> name !in DUE_NAMES && name !in PAID_NAMES && name !in ENDING_NAMES
    ensures name in DUE_NAMES ==> name !in PAID_NAMES && name !in ENDING_NAMES
    ensures name in PAID_NAMES ==> name !in ENDING_NAMES
    ensures name in PLAN_NAMES + ENDING_NAMES ==> "subscription." <= name && IsSubscriptionName(name)
  {
    NamesDiffer();
  }

  /** The plan a payload names: the checkout metadata's, or else that of a configured product. */
  function NamedPlan(raw: RawDodoEvent, s: Settings): Option<PaidPlan> {
    if raw.metadataPlan == Some("pro") then Some(Pro)
    else if raw.metadataPlan == Some("team") then Some(Team)
    else if Truthy(raw.productId) && raw.productId == s.proProductId then Some(Pro)
    else if Truthy(raw.productId) && raw.productId == s.teamProductId then Some(Team)
    else None
  }

  /** The seats beyond the included ones a payload asks for. */
  function NamedSeats(raw: RawDodoEvent): int {
    if raw.metadataSeats.Some? && raw.metadataSeats.value >= 0 then raw.metadataSeats.value else 0
  }

  /** Plan and seats change together, on a plan name whose payload names another plan: Team
      with 20 seats and those asked for, Pro without any. */
  predicate PlanByName(raw: RawDodoEvent, s: Settings, row: Subscription, next: Subscription) {
    var plan := NamedPlan(raw, s);
    if raw.name in PLAN_NAMES && plan.Some? && plan.value != row.planId then
      && next.planId == plan.value
      && next.additionalSeatQuantity == (if plan.value == Team then NamedSeats(raw) else 0)
      && next.billableSeats == (if plan.value == Team then 20 + NamedSeats(raw) else 0)
    else
      && next.planId == row.planId
      && next.additionalSeatQuantity == row.additionalSeatQuantity && next.billableSeats == row.billableSeats
  }

  lemma NamesDecidePlan(raw: RawDodoEvent, id: string, row: Subscription, env: Env)
    ensures PlanByName(raw, env.settings, row, UpdatedRow(row, NormalizeDodoEvent(raw, id), env))
  {
    NamesDecideKinds(raw, id);
    NamesAreApart(raw.name);
  }

  /** A payload's value, or the one stored. */
  function OrStored<T>(given: Option<T>, stored: Option<T>): Option<T> {
    if given.Some? then given else stored
  }

  /** A plan name brings the payload's subscription id and its previous and next billing date,
      where it has them. */
  predicate DatesByName(raw: RawDodoEvent, row: Subscription, next: Subscription) {
    if raw.name in PLAN_NAMES then
      && next.subscriptionReference == OrStored(raw.subscriptionId, row.subscriptionReference)
      && next.currentPeriodStart == OrStored(raw.previousBillingDate, row.currentPeriodStart)
      && next.currentPeriodEnd == OrStored(raw.nextBillingDate, row.currentPeriodEnd)
    else
      && next.subscriptionReference == row.subscriptionReference
      && next.currentPeriodStart == row.currentPeriodStart && next.currentPeriodEnd == row.currentPeriodEnd
  }

  /** The other columns: a failure starts a grace period of whole days, a recovery ends it; a
      cancellation by name drops the cancellation at period end. Owner, customer and interval
      never change. */
  predicate ColumnsByName(raw: RawDodoEvent, env: Env, row: Subscription, next: Subscription) {
    && DatesByName(raw, row, next)
    && next.provider == row.provider && next.customerReference == row.customerReference
    && next.billingInterval == row.billingInterval
    && next.gracePeriodEnd
       == (if raw.name in DUE_NAMES then Some(env.now + 24 * 60 * 60 * env.settings.gracePeriodDays)
           else if raw.name in PAID_NAMES && (row.status == PastDue || row.status == Incomplete) then None
           else row.gracePeriodEnd)
    && next.cancelAtPeriodEnd == (row.cancelAtPeriodEnd && raw.name != "subscription.cancelled")
  }

  lemma NamesDecideDates(raw: RawDodoEvent, id: string, row: Subscription, env: Env)
    ensures DatesByName(raw, row, UpdatedRow(row, NormalizeDodoEvent(raw, id), env))
  {
    NamesDecideKinds(raw, id);
    NamesAreApart(raw.name);
  }

  lemma NamesDecideGrace(raw: RawDodoEvent, id: string, row: Subscription, env: Env)
    ensures var next := UpdatedRow(row, NormalizeDodoEvent(raw, id), env);
            && next.gracePeriodEnd
               == (if raw.name in DUE_NAMES then Some(env.now + 24 * 60 * 60 * env.settings.gracePeriodDays)
                   else if raw.name in PAID_NAMES && (row.status == PastDue || row.status == Incomplete) then None
                   else row.gracePeriodEnd)
            && next.cancelAtPeriodEnd == (row.cancelAtPeriodEnd && raw.name != "subscription.cancelled")
  {
    NamesDecideKinds(raw, id);
    NamesAreApart(raw.name);
  }

  lemma NamesDecideColumns(raw: RawDodoEvent, id: string, row: Subscription, env: Env)
    ensures ColumnsByName(raw, env, row, UpdatedRow(row, NormalizeDodoEvent(raw, id), env))
  {
    NamesDecideGrace(raw, id, row, env);
    NamesDecideDates(raw, id, row, env);
  }

  /** The row as a delivery of this payload leaves it. */
  predicate RowByName(raw: RawDodoEvent, env: Env, row: Subscription, next: Subscription) {
    if !Writes(raw.name) then next == row
    else
      && StatusByName(raw, row.status, next.status)
      && PlanByName(raw, env.settings, row, next)
      && ColumnsByName(raw, env, row, next)
      && next.lastProviderEvent == Webhook(EventTypeOf(raw.name))
      && next.version == row.version + 1 && next.updatedAt == env.now
  }

  lemma NamesDecideRow(raw: RawDodoEvent, id: string, row: Subscription, env: Env)
    ensures RowByName(raw, env, row, UpdatedRow(row, NormalizeDodoEvent(raw, id), env))
  {
    NamesDecideKinds(raw, id);
    NamesDecideStatus(raw, id, row, env);
    NamesDecidePlan(raw, id, row, env);
    NamesDecideColumns(raw, id, row, env);
  }

  /** The description leaves one row possible. */
  lemma RowByNameIsUnique(raw: RawDodoEvent, env: Env, row: Subscription, a: Subscription, b: Subscription)
    requires RowByName(raw, env, row, a) && RowByName(raw, env, row, b)
    ensures a == b
  {
    if Truthy(raw.status) {
      DodoSpellingsExactly(raw.status.value, a.status);
      DodoSpellingsExactly(raw.status.value, b.status);
    }
  }
}
