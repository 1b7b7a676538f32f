/** From the payload of a Dodo delivery to the tables it leaves: which row is written, what
    every column then holds, the row of the log, the audit entries, and what the workspace
    may do. */
module NamedDeliveries {
  import opened BillingTypes
  import opened Idempotency
  import opened Lookup
  import opened DodoEvents
  import opened DodoProcessor
  import opened DeliveryShape
  import opened NamedEffects
  import Audit
  import Entitlements

  /** The event was delivered before, and that delivery was completed. */
  predicate IsRepeat(t: Tables, id: string) {
    var k := EventKey(Dodo, id);
    k in t.log && t.log[k].processingStatus in {Processed, DuplicateIgnored}
  }

  /** A processed row of another Dodo event that carries one of the payload's two ids. */
  predicate SharesId(t: Tables, raw: RawDodoEvent, id: string, k: EventKey)
    requires k in t.log
  {
    var r := t.log[k];
    && k.provider == Dodo && k.externalEventId != id
    && r.processingStatus == Processed && r.occurredAt.Some?
    && ((Truthy(raw.subscriptionId) && r.subscriptionReference == raw.subscriptionId)
        || (Truthy(raw.customerId) && r.customerReference == raw.customerId))
  }

  /** The payload is older than such an event; without one, than the row's last write. */
  predicate IsOvertaken(t: Tables, raw: RawDodoEvent, id: string, row: Subscription) {
    && raw.timestamp.Some?
    && if exists k :: k in t.log && SharesId(t, raw, id, k)
       then exists k :: k in t.log && SharesId(t, raw, id, k) && raw.timestamp.value < t.log[k].occurredAt.value
       else raw.timestamp.value < row.updatedAt
  }

  lemma OvertakenExactly(t: Tables, raw: RawDodoEvent, id: string, row: Subscription)
    ensures var e := NormalizeDodoEvent(raw, id); Outdated(Begin(t, e), e, row) <==> IsOvertaken(t, raw, id, row)
  {
    var e := NormalizeDodoEvent(raw, id);
    var log := Begin(t, e).log;
    var m := LatestProcessed(log, Dodo, e.subscriptionReference, e.customerReference, id);
    forall k | k in t.log && SharesId(t, raw, id, k) ensures m.Some? && t.log[k].occurredAt.value <= m.value {
      assert log[k] == t.log[k];
      assert IsBaselineRow(k, log[k], Dodo, e.subscriptionReference, e.customerReference, id);
    }
    if m.Some? {
      var k :| k in log && IsBaselineRow(k, log[k], Dodo, e.subscriptionReference, e.customerReference, id)
               && log[k].occurredAt.value == m.value;
      assert k in t.log && SharesId(t, raw, id, k) && t.log[k].occurredAt.value == m.value;
    }
  }

  // ----- A known customer -----

  lemma UnknownWritesNothing(raw: RawDodoEvent, id: string, row: Subscription, env: Env)
    ensures EventTypeOf(raw.name) == Unknown ==> UpdatedRow(row, NormalizeDodoEvent(raw, id), env) == row
  {
    NamesDecideKinds(raw, id);
    NamesDecideTypes(raw.name);
  }

  lemma DeliveryWrites(t: Tables, raw: RawDodoEvent, id: string, env: Env, w: WorkspaceId)
    requires IsFirstMatch(t.subscriptions, Dodo, raw.subscriptionId, raw.customerId, Some(w))
    ensures var n, e, row := After(t, NormalizeDodoEvent(raw, id), env, Some(w), false), NormalizeDodoEvent(raw, id),
                             t.subscriptions[w];
            n.subscriptions == t.subscriptions[w := if IsRepeat(t, id) || IsOvertaken(t, raw, id, row) then row
                                                    else UpdatedRow(row, e, env)]
  {
    var e, row := NormalizeDodoEvent(raw, id), t.subscriptions[w];
    DeliverySubscriptions(t, e, env, Some(w), false);
    OvertakenExactly(t, raw, id, row);
    assert t.subscriptions[w := row] == t.subscriptions;
    UnknownWritesNothing(raw, id, row, env);
  }

  /** A delivery whose customer or subscription is known writes that row and no other, as its
      payload says, unless it repeats a completed one or is overtaken. */
  lemma DeliveryByName(t: Tables, raw: RawDodoEvent, id: string, env: Env, w: WorkspaceId)
    requires IsFirstMatch(t.subscriptions, Dodo, raw.subscriptionId, raw.customerId, Some(w))
    ensures var n, row := After(t, NormalizeDodoEvent(raw, id), env, Some(w), false), t.subscriptions[w];
            && w in n.subscriptions && n.subscriptions == t.subscriptions[w := n.subscriptions[w]]
            && if IsRepeat(t, id) || IsOvertaken(t, raw, id, row) then n.subscriptions[w] == row
               else RowByName(raw, env, row, n.subscriptions[w])
  {
    DeliveryWrites(t, raw, id, env, w);
    NamesDecideRow(raw, id, t.subscriptions[w], env);
  }

  /** What the workspace may do after such a delivery, by its name: a failure pays even where
      nothing did before, and an ending never does. */
  predicate AccessByName(raw: RawDodoEvent, row: Subscription, next: Subscription) {
    var before, after := Entitlements.WorkspaceDecision(row), Entitlements.WorkspaceDecision(next);
    && (after.hasPaidAccess
        <==> if raw.name in PLAN_NAMES && Truthy(raw.status)
             then raw.status.value in {"active", "trialing", "on_hold", "past_due", "grace_period"}
             else if raw.name in DUE_NAMES then true
             else if raw.name in PAID_NAMES then before.hasPaidAccess || row.status == Incomplete
             else before.hasPaidAccess && raw.name !in ENDING_NAMES)
    && (raw.name in ENDING_NAMES
        ==> after.limits == Entitlements.Entitlement(3, 1, 60, 30, false)
            && (after.managementAvailable <==> raw.name == "subscription.paused"))
  }

  lemma NamesDecideAccess(raw: RawDodoEvent, env: Env, row: Subscription, next: Subscription)
    requires RowByName(raw, env, row, next)
    ensures AccessByName(raw, row, next)
  {
    NamesAreApart(raw.name);
    if Truthy(raw.status) {
      Entitlements.DodoSpellingsExactly(raw.status.value, next.status);
    }
  }

  lemma DeliveryDecidesAccess(t: Tables, raw: RawDodoEvent, id: string, env: Env, w: WorkspaceId)
    requires IsFirstMatch(t.subscriptions, Dodo, raw.subscriptionId, raw.customerId, Some(w))
    requires !IsRepeat(t, id) && !IsOvertaken(t, raw, id, t.subscriptions[w])
    ensures var n := After(t, NormalizeDodoEvent(raw, id), env, Some(w), false);
            w in n.subscriptions && AccessByName(raw, t.subscriptions[w], n.subscriptions[w])
  {
    DeliveryByName(t, raw, id, env, w);
    NamesDecideAccess(raw, env, t.subscriptions[w],
                      After(t, NormalizeDodoEvent(raw, id), env, Some(w), false).subscriptions[w]);
  }

  // ----- An unknown customer -----

  /** The payload may create the first row of its workspace. */
  predicate MayCreateByName(t: Tables, raw: RawDodoEvent) {
    && raw.name in PLAN_NAMES + ENDING_NAMES
    && (raw.metadataPlan == Some("pro") || raw.metadataPlan == Some("team"))
    && raw.status.Some? && raw.status.value != ""
    && raw.metadataWorkspace.Some?
    && raw.metadataWorkspace.value in t.workspaces && raw.metadataWorkspace.value !in t.subscriptions
  }

  /** The row such a payload creates. */
  predicate CreatedByName(raw: RawDodoEvent, env: Env, row: Subscription) {
    var isTeam := raw.metadataPlan == Some("team");
    && row.provider == Dodo
    && row.customerReference == raw.customerId && row.subscriptionReference == raw.subscriptionId
    && row.planId == (if isTeam then Team else Pro) && row.billingInterval == Month
    && raw.status.Some? && Entitlements.DodoSpelling(raw.status.value, row.status)
    && row.additionalSeatQuantity == (if isTeam then NamedSeats(raw) else 0)
    && row.billableSeats == (if isTeam then 20 + NamedSeats(raw) else 0)
    && row.currentPeriodStart == row.currentPeriodEnd == None && !row.cancelAtPeriodEnd && row.gracePeriodEnd == None
    && row.lastProviderEvent == Webhook(EventTypeOf(raw.name)) && row.version == 0 && row.updatedAt == env.now
  }

  lemma CreationIsNamed(t: Tables, raw: RawDodoEvent, id: string, env: Env)
    ensures var e := NormalizeDodoEvent(raw, id);
            && (CanCreate(t, e) <==> MayCreateByName(t, raw))
            && (CanCreate(t, e) ==> CreatedByName(raw, env, CreatedRow(e, env)))
  {
    NamesDecideKinds(raw, id);
    NamesAreApart(raw.name);
    if raw.status.Some? {
      Entitlements.DodoSpellingsExactly(raw.status.value, Entitlements.NormalizeDodoStatus(raw.status.value));
    }
  }

  /** A delivery whose customer and subscription are unknown creates the row of the workspace
      its metadata names, as its payload says, or writes no row. */
  lemma CreationByName(t: Tables, raw: RawDodoEvent, id: string, env: Env)
    requires IsFirstMatch(t.subscriptions, Dodo, raw.subscriptionId, raw.customerId, None)
    ensures var n := After(t, NormalizeDodoEvent(raw, id), env, None, false);
            if IsRepeat(t, id) || !MayCreateByName(t, raw) then n.subscriptions == t.subscriptions
            else
              var w := raw.metadataWorkspace.value;
              && w in n.subscriptions && n.subscriptions == t.subscriptions[w := n.subscriptions[w]]
              && CreatedByName(raw, env, n.subscriptions[w])
  {
    var e := NormalizeDodoEvent(raw, id);
    DeliverySubscriptions(t, e, env, None, false);
    CreationIsNamed(t, raw, id, env);
    NamesDecideTypes(raw.name);
  }

  // ----- The row of the log -----

  /** What the first delivery of an event records of its payload. */
  predicate RecordedByName(raw: RawDodoEvent, r: WebhookRow) {
    && r.eventType == EventTypeOf(raw.name)
    && r.occurredAt == raw.timestamp
    && r.customerReference == raw.customerId && r.subscriptionReference == raw.subscriptionId
    && r.transactionReference == if "payment." <= raw.name then raw.paymentId else None
  }

  /** A lifecycle name that finds no row and can create none. */
  predicate IsHomeless(t: Tables, raw: RawDodoEvent, found: Option<WorkspaceId>) {
    found.None? && raw.name in PLAN_NAMES + ENDING_NAMES && !MayCreateByName(t, raw)
  }

  lemma HomelessExactly(t: Tables, raw: RawDodoEvent, id: string, env: Env, found: Option<WorkspaceId>)
    ensures IsUnresolved(t, NormalizeDodoEvent(raw, id), found) <==> IsHomeless(t, raw, found)
  {
    CreationIsNamed(t, raw, id, env);
    NamesDecideKinds(raw, id);
  }

  /** What an attempt on the event leaves on its row of the log: failed exactly when it
      raised, or when the event is homeless. */
  predicate AttemptByName(r: WebhookRow, raised: bool, homeless: bool) {
    && r.processingStatus == (if raised || homeless then Failed else Processed)
    && r.errorCategory == if raised then Unexpected else if homeless then UnknownReference else NoError
  }

  /** The first delivery of an event adds its row to the log and changes no other: with the
      payload's ids and time, one attempt and its status. */
  lemma LogRowByName(t: Tables, raw: RawDodoEvent, id: string, env: Env, found: Option<WorkspaceId>, raised: bool)
    requires IsFirstMatch(t.subscriptions, Dodo, raw.subscriptionId, raw.customerId, found)
    requires EventKey(Dodo, id) !in t.log
    ensures var n, k := After(t, NormalizeDodoEvent(raw, id), env, found, raised), EventKey(Dodo, id);
            && k in n.log && n.log == t.log[k := n.log[k]]
            && RecordedByName(raw, n.log[k]) && n.log[k].attemptCount == 1
            && AttemptByName(n.log[k], raised, IsHomeless(t, raw, found))
  {
    var e := NormalizeDodoEvent(raw, id);
    DeliveryLogRow(t, e, env, found, raised);
    HomelessExactly(t, raw, id, env, found);
  }

  /** A later delivery of an event that is not completed keeps what was recorded, counts one
      more attempt, and ends in the same status a first one would. */
  lemma LaterLogRowByName(t: Tables, raw: RawDodoEvent, id: string, env: Env, found: Option<WorkspaceId>, raised: bool)
    requires IsFirstMatch(t.subscriptions, Dodo, raw.subscriptionId, raw.customerId, found)
    requires EventKey(Dodo, id) in t.log
    ensures var n, k := After(t, NormalizeDodoEvent(raw, id), env, found, raised), EventKey(Dodo, id);
            && k in n.log && n.log == t.log[k := n.log[k]]
            && var (r, s) := (t.log[k], n.log[k]);
               && (r.eventType, r.occurredAt, r.customerReference, r.subscriptionReference, r.transactionReference)
                  == (s.eventType, s.occurredAt, s.customerReference, s.subscriptionReference, s.transactionReference)
               && if IsRepeat(t, id) then
                    s.processingStatus == DuplicateIgnored && s.attemptCount == r.attemptCount
                    && s.errorCategory == r.errorCategory
                  else s.attemptCount == r.attemptCount + 1 && AttemptByName(s, raised, IsHomeless(t, raw, found))
  {
    var e := NormalizeDodoEvent(raw, id);
    DeliveryLogRow(t, e, env, found, raised);
    HomelessExactly(t, raw, id, env, found);
  }

  lemma OutcomeOf(t: Tables, e: DodoEvent, env: Env, found: Option<WorkspaceId>, raised: bool)
    requires found.Some? ==> found.value in t.subscriptions
    ensures Process(t, e, env, found, raised).1
            == if SettledIn(t, Key(e)) then Duplicate
               else if raised then Raised
               else if e.eventType == Unknown then Acknowledged
               else if IsUnresolved(t, e, found) then Unresolved else Delivered
  {
    ApplyKeepsLog(Begin(t, e), e, env, found);
  }

  /** What the service reports of a delivery, for every outcome. */
  lemma OutcomeByName(t: Tables, raw: RawDodoEvent, id: string, env: Env, found: Option<WorkspaceId>, raised: bool)
    requires IsFirstMatch(t.subscriptions, Dodo, raw.subscriptionId, raw.customerId, found)
    ensures var outcome := Process(t, NormalizeDodoEvent(raw, id), env, found, raised).1;
            && (outcome == Duplicate <==> IsRepeat(t, id))
            && (outcome == Raised <==> !IsRepeat(t, id) && raised)
            && (outcome == Acknowledged <==> !IsRepeat(t, id) && !raised && !IsKnown(raw.name))
            && (outcome == Unresolved <==> !IsRepeat(t, id) && !raised && IsHomeless(t, raw, found))
  {
    OutcomeOf(t, NormalizeDodoEvent(raw, id), env, found, raised);
    HomelessExactly(t, raw, id, env, found);
    NamesDecideTypes(raw.name);
  }

  // ----- The audit entries -----

  function StatusChange(before: Status, after: Status): map<DetailKey, DetailValue> {
    map[PreviousStatusKey := StatusDetail(before), NewStatusKey := StatusDetail(after)]
  }

  function DodoEntry(w: WorkspaceId, t: AuditEventType, details: map<DetailKey, DetailValue>): AuditEvent {
    AuditEvent(w, t, Some(Dodo), details)
  }

  function ChangeDetails(row: Subscription, next: Subscription): map<DetailKey, DetailValue> {
    (if next.planId == row.planId then map[]
     else map[PreviousPlanIdKey := PlanDetail(row.planId), NewPlanIdKey := PlanDetail(next.planId),
              BillableSeatsKey := NumberDetail(next.billableSeats)])
    + (if next.subscriptionReference == row.subscriptionReference then map[]
       else map[ReasonKey := ReasonDetail(ReferenceChanged)])
  }

  /** The entries of an accepted delivery, read off the change of the row: an ending, a change
      of plan or reference, or a failed payment with its grace period. */
  function EventEntriesByName(raw: RawDodoEvent, w: WorkspaceId, row: Subscription, next: Subscription)
    : seq<AuditEvent>
  {
    if raw.name in {"subscription.cancelled", "subscription.expired"} then
      [DodoEntry(w, AuditEventType.SubscriptionCanceled, StatusChange(row.status, next.status))]
    else if next.planId != row.planId || next.subscriptionReference != row.subscriptionReference then
      [DodoEntry(w, SubscriptionChanged, ChangeDetails(row, next))]
    else if raw.name in {"subscription.on_hold", "dunning.started"} then
      [DodoEntry(w, PaymentFailed, map[ReasonKey := ReasonDetail(PaymentPastDueReason)]),
       DodoEntry(w, GracePeriodStarted, map[GracePeriodEndKey := TimeDetail(next.gracePeriodEnd)])]
    else if raw.name in {"subscription.failed", "payment.failed"} then
      [DodoEntry(w, PaymentFailed, map[ReasonKey := ReasonDetail(TransactionFailedReason)])]
    else []
  }

  /** And after them a change of status. */
  function EntriesByName(raw: RawDodoEvent, w: WorkspaceId, row: Subscription, next: Subscription): seq<AuditEvent> {
    EventEntriesByName(raw, w, row, next)
    + if next.status == row.status then []
      else [DodoEntry(w, SubscriptionChanged, StatusChange(row.status, next.status))]
  }

  /** The filter lets every listed detail through. */
  lemma ListedDetailsStay(w: WorkspaceId, t: AuditEventType, details: map<DetailKey, DetailValue>)
    requires forall k :: k in details ==> !k.Unlisted?
    ensures Audit.Entry(w, t, Dodo, details) == DodoEntry(w, t, details)
  {
    Audit.FilterKeepsStatusDetails(details);
    assert Audit.SafeDetails(details) == details;
  }

  lemma ChangesShow(row: Subscription, e: DodoEvent, env: Env)
    ensures var next := UpdatedRow(row, e, env);
            && (ChangesPlan(row, e, env.settings) <==> next.planId != row.planId)
            && (ChangesReference(row, e) <==> next.subscriptionReference != row.subscriptionReference)
            && (IsPaymentFailure(e) ==> next.gracePeriodEnd == GraceEnd(env))
  {
  }

  lemma EventEntriesAreNamed(raw: RawDodoEvent, id: string, env: Env, w: WorkspaceId, row: Subscription)
    ensures var e, next := NormalizeDodoEvent(raw, id), UpdatedRow(row, NormalizeDodoEvent(raw, id), env);
            EventEntries(w, row, next, e, env) == EventEntriesByName(raw, w, row, next)
  {
    var e, next := NormalizeDodoEvent(raw, id), UpdatedRow(row, NormalizeDodoEvent(raw, id), env);
    NamesDecideKinds(raw, id);
    NamesDecideTypes(raw.name);
    ChangesShow(row, e, env);
    ListedDetailsStay(w, AuditEventType.SubscriptionCanceled, StatusChange(row.status, next.status));
    ListedDetailsStay(w, SubscriptionChanged, ChangeDetails(row, next));
    ListedDetailsStay(w, PaymentFailed, map[ReasonKey := ReasonDetail(PaymentPastDueReason)]);
    ListedDetailsStay(w, PaymentFailed, map[ReasonKey := ReasonDetail(TransactionFailedReason)]);
    ListedDetailsStay(w, GracePeriodStarted, map[GracePeriodEndKey := TimeDetail(next.gracePeriodEnd)]);
  }

  lemma EntriesAreNamed(raw: RawDodoEvent, id: string, env: Env, w: WorkspaceId, row: Subscription)
    ensures var e, next := NormalizeDodoEvent(raw, id), UpdatedRow(row, NormalizeDodoEvent(raw, id), env);
            EventEntries(w, row, next, e, env) + StatusEntry(w, Dodo, row.status, next.status)
            == EntriesByName(raw, w, row, next)
  {
    var next := UpdatedRow(row, NormalizeDodoEvent(raw, id), env);
    EventEntriesAreNamed(raw, id, env, w, row);
    ListedDetailsStay(w, SubscriptionChanged, StatusChange(row.status, next.status));
  }

  /** The entry for a delivery that is overtaken. */
  function OvertakenEntry(raw: RawDodoEvent, w: WorkspaceId): AuditEvent {
    DodoEntry(w, WebhookDuplicateIgnored,
              map[ReasonKey := ReasonDetail(StaleEventReason), EventTypeKey := EventDetail(EventTypeOf(raw.name))])
  }

  lemma AuditByName(t: Tables, raw: RawDodoEvent, id: string, env: Env, w: WorkspaceId)
    requires IsFirstMatch(t.subscriptions, Dodo, raw.subscriptionId, raw.customerId, Some(w))
    ensures var n, row := After(t, NormalizeDodoEvent(raw, id), env, Some(w), false), t.subscriptions[w];
            && w in n.subscriptions
            && n.audit == t.audit + if IsRepeat(t, id) || !IsKnown(raw.name) then []
                                    else if IsOvertaken(t, raw, id, row) then [OvertakenEntry(raw, w)]
                                    else EntriesByName(raw, w, row, n.subscriptions[w])
  {
    var e, row := NormalizeDodoEvent(raw, id), t.subscriptions[w];
    DeliveryWrites(t, raw, id, env, w);
    DeliveryAudit(t, e, env, Some(w), false);
    OvertakenExactly(t, raw, id, row);
    EntriesAreNamed(raw, id, env, w, row);
    NamesDecideTypes(raw.name);
    ListedDetailsStay(w, WebhookDuplicateIgnored, OvertakenEntry(raw, w).details);
  }

  /** The entry of a creation: the plan, the interval and the seats. */
  function CreationEntry(raw: RawDodoEvent, w: WorkspaceId): AuditEvent {
    var isTeam := raw.metadataPlan == Some("team");
    DodoEntry(w, SubscriptionActivated,
              map[PlanIdKey := PlanDetail(if isTeam then Team else Pro), BillingIntervalKey := IntervalDetail(Month),
                  BillableSeatsKey := NumberDetail(if isTeam then 20 + NamedSeats(raw) else 0)])
  }

  lemma CreationAuditByName(t: Tables, raw: RawDodoEvent, id: string, env: Env)
    requires IsFirstMatch(t.subscriptions, Dodo, raw.subscriptionId, raw.customerId, None)
    ensures var n := After(t, NormalizeDodoEvent(raw, id), env, None, false);
            n.audit == t.audit + if IsRepeat(t, id) || !MayCreateByName(t, raw) then []
                                 else [CreationEntry(raw, raw.metadataWorkspace.value)]
  {
    var e := NormalizeDodoEvent(raw, id);
    DeliveryAudit(t, e, env, None, false);
    CreationIsNamed(t, raw, id, env);
    NamesDecideTypes(raw.name);
    if MayCreateByName(t, raw) {
      var w := raw.metadataWorkspace.value;
      ListedDetailsStay(w, SubscriptionActivated, CreationEntry(raw, w).details);
    }
  }
}
