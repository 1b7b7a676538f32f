/** From the payload of a Paddle delivery, or the snapshot of a reconciliation, to the tables
    it leaves: which row is written, what it then holds, the row of the log and the audit
    entries. */
module PaddleEffects {
  import opened BillingTypes
  import opened Idempotency
  import opened Lookup
  import opened DodoProcessor
  import opened PaddleProcessor
  import opened PaddleEvents
  import Audit
  import Entitlements

  const STATUS_NAMES: set<string> := {"subscription.created", "subscription.updated", "subscription.activated",
                                      "subscription.trialing", "subscription.resumed"}
  const DUE_NAMES: set<string> := {"subscription.past_due", "transaction.past_due", "transaction.payment_failed"}
  const PAID_NAMES: set<string> := {"transaction.completed", "transaction.paid"}
  const ENDING_NAMES: set<string> := {"subscription.canceled", "subscription.paused"}

  predicate Writes(name: string) {
    name in STATUS_NAMES || name in DUE_NAMES || name in PAID_NAMES || name in ENDING_NAMES
  }

  predicate IsKnown(name: string) {
    Writes(name) || name == "customer.updated"
  }

  lemma NamesDiffer()
    ensures "subscription.created" != "subscription.updated" && "subscription.canceled" != "subscription.trialing"
    ensures "subscription.canceled" != "subscription.past_due" && "subscription.past_due" != "subscription.trialing"
    ensures "transaction.past_due" != "transaction.completed"
  {
    assert "subscription.created"[13] == 'c' && "subscription.updated"[13] == 'u';
    assert "subscription.canceled"[13] == 'c' && "subscription.trialing"[13] == 't';
    assert "subscription.past_due"[13] == 'p';
  }

  /** Which names have which type, for every type. */
  lemma NamesDecideTypes(name: string)
    ensures EventTypeOf(name) == SubscriptionCreated <==> name == "subscription.created"
    ensures EventTypeOf(name) == SubscriptionUpdated
            <==> name in {"subscription.updated", "subscription.activated", "subscription.trialing"}
    ensures EventTypeOf(name) == SubscriptionResumed <==> name == "subscription.resumed"
    ensures EventTypeOf(name) == EventType.SubscriptionCanceled <==> name == "subscription.canceled"
    ensures EventTypeOf(name) == SubscriptionPaused <==> name == "subscription.paused"
    ensures EventTypeOf(name) == PaymentPastDue <==> name in {"subscription.past_due", "transaction.past_due"}
    ensures EventTypeOf(name) == TransactionFailed <==> name == "transaction.payment_failed"
    ensures EventTypeOf(name) == TransactionCompleted <==> name in {"transaction.completed", "transaction.paid"}
    ensures EventTypeOf(name) == CustomerUpdated <==> name == "customer.updated"
    ensures EventTypeOf(name) == Unknown <==> !IsKnown(name)
  {
    NamesDiffer();
  }

  lemma NamesDecideKinds(raw: RawPaddleEvent)
    ensures var e := NormalizePaddleEvent(raw);
            && (SetsStatus(e) <==> raw.name in STATUS_NAMES)
            && (Fails(e) <==> raw.name in DUE_NAMES)
            && (e.eventType == TransactionCompleted <==> raw.name in PAID_NAMES)
            && (e.eventType == CustomerUpdated || e.eventType == Unknown <==> !Writes(raw.name))
    ensures raw.name in STATUS_NAMES + ENDING_NAMES ==> "subscription." <= raw.name
  {
    NamesDecideTypes(raw.name);
  }

  lemma NamesAreApart(name: string)
    ensures name in STATUS_NAMES ==> name !in DUE_NAMES && name !in PAID_NAMES && name !in ENDING_NAMES
    ensures name in DUE_NAMES ==> name !in PAID_NAMES && name !in ENDING_NAMES
    ensures name in PAID_NAMES ==> name !in ENDING_NAMES
  {
    NamesDecideTypes(name);
  }

  // ----- The row -----

  /** The status of the row after a delivery: on a status name what the payload's status
      spells, past due on the failure names, active on the payment names if it was past due or
      incomplete, canceled and paused by name. */
  predicate StatusByName(raw: RawPaddleEvent, before: Status, after: Status) {
    if raw.name in STATUS_NAMES && Truthy(raw.status) then Entitlements.PaddleSpelling(raw.status.value, after)
    else if raw.name in DUE_NAMES then after == PastDue
    else if raw.name in PAID_NAMES && (before == PastDue || before == Incomplete) then after == Active
    else if raw.name == "subscription.canceled" then after == Canceled
    else if raw.name == "subscription.paused" then after == Paused
    else after == before
  }

  lemma NamesDecideStatus(raw: RawPaddleEvent, row: Subscription, env: Env)
    ensures StatusByName(raw, row.status, UpdatedPaddleRow(row, NormalizePaddleEvent(raw), env).status)
  {
    NamesDecideKinds(raw);
    NamesDecideTypes(raw.name);
    if Truthy(raw.status) {
      Entitlements.PaddleSpellingsExactly(raw.status.value, Entitlements.NormalizePaddleStatus(raw.status.value));
    }
  }

  /** The row as a delivery of this payload leaves it: plan, seats, references, dates, owner
      and interval stay; a failure starts a grace period of whole days, a recovery ends it; a
      cancellation drops the cancellation at period end. */
  predicate RowByName(raw: RawPaddleEvent, env: Env, row: Subscription, next: Subscription) {
    var recovers := raw.name in PAID_NAMES && (row.status == PastDue || row.status == Incomplete);
    if !Writes(raw.name) then next == row
    else
      && StatusByName(raw, row.status, next.status)
      && next.gracePeriodEnd
         == (if raw.name in DUE_NAMES then Some(env.now + 24 * 60 * 60 * env.settings.gracePeriodDays)
             else if recovers then None else row.gracePeriodEnd)
      && next.cancelAtPeriodEnd == (row.cancelAtPeriodEnd && raw.name != "subscription.canceled")
      && next.lastProviderEvent == Webhook(EventTypeOf(raw.name))
      && next.version == row.version + 1 && next.updatedAt == env.now
      && next == row.(status := next.status, gracePeriodEnd := next.gracePeriodEnd,
                      cancelAtPeriodEnd := next.cancelAtPeriodEnd, lastProviderEvent := next.lastProviderEvent,
                      version := next.version, updatedAt := next.updatedAt)
  }

  lemma NamesDecideRow(raw: RawPaddleEvent, row: Subscription, env: Env)
    ensures RowByName(raw, env, row, UpdatedPaddleRow(row, NormalizePaddleEvent(raw), env))
  {
    NamesDecideStatus(raw, row, env);
    NamesDecideKinds(raw);
    NamesDecideTypes(raw.name);
  }

  // ----- The delivery -----

  /** The id of the subscription a payload is about: its own on the subscription names. */
  function SubscriptionId(raw: RawPaddleEvent): Option<string> {
    if "subscription." <= raw.name then raw.dataId else raw.subscriptionId
  }

  predicate IsRepeat(t: Tables, raw: RawPaddleEvent) {
    var k := EventKey(Paddle, raw.id);
    k in t.log && t.log[k].processingStatus in {Processed, DuplicateIgnored}
  }

  /** The payload is older than the last write of the row, by whomever. */
  predicate IsOvertaken(raw: RawPaddleEvent, row: Subscription) {
    raw.occurredAt.Some? && raw.occurredAt.value < row.updatedAt
  }

  lemma SubscriptionsAfterPaddle(t: Tables, e: PaddleEvent, env: Env, found: Option<WorkspaceId>)
    requires found.Some? ==> found.value in t.subscriptions
    ensures var n := AfterPaddle(t, e, env, found, false);
            n.subscriptions
            == if found.None? || e.eventType == Unknown
                  || (PaddleKey(e) in t.log && t.log[PaddleKey(e)].processingStatus in {Processed, DuplicateIgnored})
                  || (e.occurredAt.Some? && e.occurredAt.value < t.subscriptions[found.value].updatedAt)
               then t.subscriptions
               else t.subscriptions[found.value := UpdatedPaddleRow(t.subscriptions[found.value], e, env)]
  {
  }

  /** A delivery whose customer or subscription is known writes that row and no other, as its
      payload says, unless it repeats a completed one or is older than the row's last write;
      any other delivery writes none. */
  lemma DeliveryByName(t: Tables, raw: RawPaddleEvent, env: Env, found: Option<WorkspaceId>)
    requires IsFirstMatch(t.subscriptions, Paddle, SubscriptionId(raw), raw.customerId, found)
    ensures var n := AfterPaddle(t, NormalizePaddleEvent(raw), env, found, false);
            if found.None? then n.subscriptions == t.subscriptions
            else
              var w, row := found.value, t.subscriptions[found.value];
              && w in n.subscriptions && n.subscriptions == t.subscriptions[w := n.subscriptions[w]]
              && if IsRepeat(t, raw) || IsOvertaken(raw, row) then n.subscriptions[w] == row
                 else RowByName(raw, env, row, n.subscriptions[w])
  {
    SubscriptionsAfterPaddle(t, NormalizePaddleEvent(raw), env, found);
    if found.Some? {
      var row := t.subscriptions[found.value];
      NamesDecideRow(raw, row, env);
      NamesDecideTypes(raw.name);
      assert t.subscriptions[found.value := row] == t.subscriptions;
    }
  }

  /** What the workspace may do after such a delivery, by its name. */
  lemma DeliveryDecidesAccess(t: Tables, raw: RawPaddleEvent, env: Env, w: WorkspaceId)
    requires IsFirstMatch(t.subscriptions, Paddle, SubscriptionId(raw), raw.customerId, Some(w))
    requires !IsRepeat(t, raw) && !IsOvertaken(raw, t.subscriptions[w])
    ensures var n, row := AfterPaddle(t, NormalizePaddleEvent(raw), env, Some(w), false), t.subscriptions[w];
            && w in n.subscriptions
            && var before, after := Entitlements.WorkspaceDecision(row),
                                    Entitlements.WorkspaceDecision(n.subscriptions[w]);
               && (after.hasPaidAccess
                   <==> if raw.name in STATUS_NAMES && Truthy(raw.status)
                        then raw.status.value in {"trialing", "active", "past_due"}
                        else if raw.name in DUE_NAMES then true
                        else if raw.name in PAID_NAMES then before.hasPaidAccess || row.status == Incomplete
                        else before.hasPaidAccess && raw.name !in ENDING_NAMES)
               && (raw.name in ENDING_NAMES ==> after.limits == Entitlements.Entitlement(3, 1, 60, 30, false))
  {
    DeliveryByName(t, raw, env, Some(w));
    NamesAreApart(raw.name);
    if Truthy(raw.status) {
      Entitlements.PaddleSpellingsExactly(
        raw.status.value, AfterPaddle(t, NormalizePaddleEvent(raw), env, Some(w), false).subscriptions[w].status);
    }
  }

  /** The first delivery of an event adds its row to the log and changes no other: with the
      payload's ids and time, and processed after one attempt. A raising one leaves nothing. */
  lemma LogRowByName(t: Tables, raw: RawPaddleEvent, env: Env, found: Option<WorkspaceId>, raised: bool)
    requires IsFirstMatch(t.subscriptions, Paddle, SubscriptionId(raw), raw.customerId, found)
    requires EventKey(Paddle, raw.id) !in t.log
    ensures var n, k := AfterPaddle(t, NormalizePaddleEvent(raw), env, found, raised), EventKey(Paddle, raw.id);
            if raised then n == t
            else n.log == t.log[k := WebhookRow(EventTypeOf(raw.name), raw.occurredAt, raw.customerId,
                                                SubscriptionId(raw),
                                                if "transaction." <= raw.name then raw.dataId else None,
                                                Processed, 1, NoError)]
  {
    var e := NormalizePaddleEvent(raw);
    var r := BeginPaddle(t, e).log[PaddleKey(e)];
    assert t.log[PaddleKey(e) := r][PaddleKey(e) := MarkedProcessed(r)] == t.log[PaddleKey(e) := MarkedProcessed(r)];
  }

  /** A later delivery that does not raise keeps what was recorded, and processes the event
      with one more attempt, or marks the repeat of a completed one. */
  lemma LaterLogRowByName(t: Tables, raw: RawPaddleEvent, env: Env, found: Option<WorkspaceId>)
    requires IsFirstMatch(t.subscriptions, Paddle, SubscriptionId(raw), raw.customerId, found)
    requires EventKey(Paddle, raw.id) in t.log
    ensures var n, k := AfterPaddle(t, NormalizePaddleEvent(raw), env, found, false), EventKey(Paddle, raw.id);
            n.log == t.log[k := if IsRepeat(t, raw) then t.log[k].(processingStatus := DuplicateIgnored)
                                else t.log[k].(processingStatus := Processed, errorCategory := NoError,
                                               attemptCount := t.log[k].attemptCount + 1)]
  {
  }

  /** What the service reports of a delivery, for every outcome. */
  lemma OutcomeByName(t: Tables, raw: RawPaddleEvent, env: Env, found: Option<WorkspaceId>, raised: bool)
    requires IsFirstMatch(t.subscriptions, Paddle, SubscriptionId(raw), raw.customerId, found)
    ensures var outcome := ProcessPaddle(t, NormalizePaddleEvent(raw), env, found, raised).1;
            && (outcome == Duplicate <==> IsRepeat(t, raw))
            && (outcome == Raised <==> !IsRepeat(t, raw) && raised)
            && (outcome == Acknowledged <==> !IsRepeat(t, raw) && !raised && !IsKnown(raw.name))
            && (outcome == Delivered <==> !IsRepeat(t, raw) && !raised && IsKnown(raw.name))
  {
    NamesDecideTypes(raw.name);
  }

  // ----- The audit entries -----

  function Entry(w: WorkspaceId, t: AuditEventType, details: map<DetailKey, DetailValue>): AuditEvent {
    AuditEvent(w, t, Some(Paddle), details)
  }

  function StatusChange(before: Status, after: Status): map<DetailKey, DetailValue> {
    map[PreviousStatusKey := StatusDetail(before), NewStatusKey := StatusDetail(after)]
  }

  lemma ListedDetailsStay(w: WorkspaceId, t: AuditEventType, details: map<DetailKey, DetailValue>)
    requires forall k :: k in details ==> !k.Unlisted?
    ensures Audit.Entry(w, t, Paddle, details) == Entry(w, t, details)
  {
    Audit.FilterKeepsStatusDetails(details);
    assert Audit.SafeDetails(details) == details;
  }

  function EventEntriesByName(raw: RawPaddleEvent, w: WorkspaceId, row: Subscription, next: Subscription)
    : seq<AuditEvent>
  {
    if raw.name == "subscription.canceled" then
      [Entry(w, AuditEventType.SubscriptionCanceled, StatusChange(row.status, next.status))]
    else if raw.name in {"subscription.past_due", "transaction.past_due"} then
      [Entry(w, PaymentFailed, map[ReasonKey := ReasonDetail(PaymentPastDueReason)]),
       Entry(w, GracePeriodStarted, map[GracePeriodEndKey := TimeDetail(next.gracePeriodEnd)])]
    else if raw.name == "transaction.payment_failed" then
      [Entry(w, PaymentFailed, map[ReasonKey := ReasonDetail(TransactionFailedReason)])]
    else []
  }

  /** The entries of an accepted delivery, read off the change of the row. */
  function EntriesByName(raw: RawPaddleEvent, w: WorkspaceId, row: Subscription, next: Subscription): seq<AuditEvent> {
    EventEntriesByName(raw, w, row, next)
    + if next.status == row.status then [] else [Entry(w, SubscriptionChanged, StatusChange(row.status, next.status))]
  }

  lemma EntriesAreNamed(raw: RawPaddleEvent, env: Env, w: WorkspaceId, row: Subscription)
    ensures var e, next := NormalizePaddleEvent(raw), UpdatedPaddleRow(row, NormalizePaddleEvent(raw), env);
            PaddleEntries(w, row, next, e, env) + StatusEntry(w, Paddle, row.status, next.status)
            == EntriesByName(raw, w, row, next)
  {
    var next := UpdatedPaddleRow(row, NormalizePaddleEvent(raw), env);
    NamesDecideTypes(raw.name);
    ListedDetailsStay(w, AuditEventType.SubscriptionCanceled, StatusChange(row.status, next.status));
    ListedDetailsStay(w, SubscriptionChanged, StatusChange(row.status, next.status));
    ListedDetailsStay(w, PaymentFailed, map[ReasonKey := ReasonDetail(PaymentPastDueReason)]);
    ListedDetailsStay(w, PaymentFailed, map[ReasonKey := ReasonDetail(TransactionFailedReason)]);
    ListedDetailsStay(w, GracePeriodStarted, map[GracePeriodEndKey := TimeDetail(next.gracePeriodEnd)]);
  }

  /** The entry for a delivery that is overtaken. */
  function OvertakenEntry(raw: RawPaddleEvent, w: WorkspaceId): AuditEvent {
    Entry(w, WebhookDuplicateIgnored,
          map[ReasonKey := ReasonDetail(StaleEventReason), EventTypeKey := EventDetail(EventTypeOf(raw.name))])
  }

  lemma AuditAfterPaddle(t: Tables, e: PaddleEvent, env: Env, w: WorkspaceId)
    requires w in t.subscriptions
    ensures var n, row := AfterPaddle(t, e, env, Some(w), false), t.subscriptions[w];
            var next := UpdatedPaddleRow(row, e, env);
            n.audit
            == t.audit
               + if e.eventType == Unknown
                    || (PaddleKey(e) in t.log && t.log[PaddleKey(e)].processingStatus in {Processed, DuplicateIgnored})
                 then []
                 else if e.occurredAt.Some? && e.occurredAt.value < row.updatedAt
                 then [StaleEntry(w, Paddle, e.eventType)]
                 else PaddleEntries(w, row, next, e, env) + StatusEntry(w, Paddle, row.status, next.status)
  {
    var row := t.subscriptions[w];
    var next := UpdatedPaddleRow(row, e, env);
    var x, y := PaddleEntries(w, row, next, e, env), StatusEntry(w, Paddle, row.status, next.status);
    assert t.audit + x + y == t.audit + (x + y);
  }

  lemma AuditByName(t: Tables, raw: RawPaddleEvent, env: Env, w: WorkspaceId)
    requires IsFirstMatch(t.subscriptions, Paddle, SubscriptionId(raw), raw.customerId, Some(w))
    ensures var n, row := AfterPaddle(t, NormalizePaddleEvent(raw), env, Some(w), false), t.subscriptions[w];
            && w in n.subscriptions
            && n.audit == t.audit + if IsRepeat(t, raw) || !IsKnown(raw.name) then []
                                    else if IsOvertaken(raw, row) then [OvertakenEntry(raw, w)]
                                    else EntriesByName(raw, w, row, n.subscriptions[w])
  {
    var e, row := NormalizePaddleEvent(raw), t.subscriptions[w];
    SubscriptionsAfterPaddle(t, e, env, Some(w));
    AuditAfterPaddle(t, e, env, w);
    EntriesAreNamed(raw, env, w, row);
    NamesDecideTypes(raw.name);
    ListedDetailsStay(w, WebhookDuplicateIgnored, OvertakenEntry(raw, w).details);
  }

  // ----- Reconciliation -----

  predicate HasPaddleSubscription(t: Tables, w: WorkspaceId) {
    && w in t.subscriptions && t.subscriptions[w].provider == Paddle
    && t.subscriptions[w].subscriptionReference !in {None, Some("")}
  }

  /** The reconciliation finds a Paddle row with a reference and a live subscription whose
      customer, where both sides know one, is the row's. */
  predicate Reconciles(t: Tables, w: WorkspaceId, snapshot: Option<PaddleSnapshot>) {
    && HasPaddleSubscription(t, w) && snapshot.Some?
    && (snapshot.value.customerReference == "" || !Truthy(t.subscriptions[w].customerReference)
        || t.subscriptions[w].customerReference == Some(snapshot.value.customerReference))
  }

  /** The snapshot's status is read in Paddle's vocabulary, its dates and flag are taken over,
      and nothing else of the row changes. */
  predicate RowBySnapshot(s: PaddleSnapshot, env: Env, row: Subscription, next: Subscription) {
    && Entitlements.PaddleSpelling(s.status, next.status)
    && next == row.(status := next.status, currentPeriodStart := s.currentPeriodStart,
                    currentPeriodEnd := s.currentPeriodEnd, cancelAtPeriodEnd := s.cancelAtPeriodEnd,
                    version := row.version + 1, updatedAt := env.now)
  }

  /** The seats beyond 20 that the members need and the subscription has. */
  predicate SeatsDiffer(s: PaddleSnapshot, members: nat) {
    (if members > 20 then members - 20 else 0) != (if s.billableSeats > 20 then s.billableSeats - 20 else 0)
  }

  /** A reconciliation writes exactly when it reconciles: the row as the snapshot says, and
      one entry, preceded by another when the seats beyond 20 differ, in which case, and only
      then, it calls for the seat update. */
  lemma ReconciliationBySnapshot(t: Tables, w: WorkspaceId, snapshot: Option<PaddleSnapshot>, members: nat, env: Env)
    ensures var (n, result) := ReconcilePaddle(t, w, snapshot, members, env);
            && (result.Reconciled? <==> Reconciles(t, w, snapshot))
            && (!result.Reconciled? ==> n == t)
            && (result.Reconciled? ==>
                  var row, s := t.subscriptions[w], snapshot.value;
                  && w in n.subscriptions
                  && n == t.(subscriptions := t.subscriptions[w := n.subscriptions[w]], audit := n.audit)
                  && RowBySnapshot(s, env, row, n.subscriptions[w])
                  && (result.seatUpdate <==> SeatsDiffer(s, members))
                  && n.audit == t.audit + SnapshotEntries(s, members, w, row, n.subscriptions[w]))
  {
    if Reconciles(t, w, snapshot) {
      var row, s := t.subscriptions[w], snapshot.value;
      Entitlements.PaddleSpellingsExactly(s.status, Entitlements.NormalizePaddleStatus(s.status));
      SnapshotEntriesAreWritten(s, members, w, row, env);
    }
  }

  function SnapshotEntries(s: PaddleSnapshot, members: nat, w: WorkspaceId, row: Subscription, next: Subscription)
    : seq<AuditEvent>
  {
    (if SeatsDiffer(s, members)
     then [Entry(w, SeatCountChanged,
                 map[ReasonKey := ReasonDetail(SeatReconciliation), BillableSeatsKey := NumberDetail(members)])]
     else [])
    + [Entry(w, ProviderReconciliation, StatusChange(row.status, next.status))]
  }

  lemma SnapshotEntriesAreWritten(s: PaddleSnapshot, members: nat, w: WorkspaceId, row: Subscription, env: Env)
    ensures var next := ReconciledPaddleRow(row, s, env);
            ReconciliationEntries(w, row, s, members, env) == SnapshotEntries(s, members, w, row, next)
  {
    ListedDetailsStay(w, SeatCountChanged,
                      map[ReasonKey := ReasonDetail(SeatReconciliation), BillableSeatsKey := NumberDetail(members)]);
    ListedDetailsStay(w, ProviderReconciliation, StatusChange(row.status, ReconciledPaddleRow(row, s, env).status));
  }

  /** Which of the three refusals is reported. */
  lemma RefusalBySnapshot(t: Tables, w: WorkspaceId, snapshot: Option<PaddleSnapshot>, members: nat, env: Env)
    ensures var result := ReconcilePaddle(t, w, snapshot, members, env).1;
            && (result == NoSubscriptionOnFile <==> !HasPaddleSubscription(t, w))
            && (result == SubscriptionNotFound <==> HasPaddleSubscription(t, w) && snapshot.None?)
            && (result == CustomerMismatch
                <==> HasPaddleSubscription(t, w) && snapshot.Some? && !Reconciles(t, w, snapshot))
  {
  }
}
