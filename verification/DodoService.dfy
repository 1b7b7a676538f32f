/** The Dodo webhook service as it runs: branch by branch, over a session whose writes may
    fail at any point, proved to do what `DodoProcessor` states. */
module DodoService {
  import opened BillingTypes
  import opened Idempotency
  import opened Lookup
  import opened DodoEvents
  import opened DodoProcessor
  import opened NamedDeliveries
  import opened NamedEffects
  import opened Session
  import Audit
  import Entitlements

  /** `_create_subscription_from_hint`. */
  method CreateSubscriptionFromHint(db: Session, e: DodoEvent, env: Env) returns (o: WriteOutcome, created: bool)
    modifies db`tables, db`faults
    ensures o.Pass? ==> created == CanCreate(old(db.tables), e)
    ensures o.Pass? && !created ==> db.tables == old(db.tables)
    ensures o.Pass? && created ==>
              var w, row := e.workspaceHint.value, CreatedRow(e, env);
              db.tables == old(db.tables).(subscriptions := old(db.tables.subscriptions)[w := row],
                                           audit := old(db.tables.audit) + [ActivationEntry(w, row)])
    ensures old(db.faults) == [] ==> o.Pass? && db.faults == []
  {
    if !IsLifecycle(e.eventType) {
      return Pass, false;
    }
    if e.workspaceHint.None? || e.planHint.None? {
      return Pass, false;
    }
    if !Truthy(e.subscriptionStatus) {
      return Pass, false;
    }
    var w := e.workspaceHint.value;
    if w !in db.tables.workspaces {
      return Pass, false;
    }
    if w in db.tables.subscriptions {
      return Pass, false;
    }
    var planId := e.planHint.value;
    var additionalSeats := if e.seatCountHint.Some? then e.seatCountHint.value else 0;
    var billableSeats := if planId == Team then TEAM_INCLUDED_SEATS + additionalSeats else 0;
    var row := Subscription(
      Dodo, e.customerReference, e.subscriptionReference, planId, Month,
      Entitlements.NormalizeDodoStatus(e.subscriptionStatus.value),
      billableSeats, if planId == Team then additionalSeats else 0,
      None, None, false, None, Webhook(e.eventType), 0, env.now);
    created := false;
    :- db.AddSubscription(w, row);
    var sub := new SubscriptionEntity(w, row);
    :- db.RecordAuditEvent(w, SubscriptionActivated, Dodo,
                           map[PlanIdKey := PlanDetail(planId), BillingIntervalKey := IntervalDetail(Month),
                               BillableSeatsKey := NumberDetail(billableSeats)], sub, env.now);
    return Pass, true;
  }

  /** What every branch below has done: the object holds the updated row, which the table
      has or is about to get, and the entries of the event are in the audit log. */
  ghost predicate BranchDone(before: Tables, after: Tables, w: WorkspaceId, row: Subscription, view: Subscription,
                             e: DodoEvent, env: Env) {
    var next := UpdatedRow(row, e, env);
    && (|| (after.subscriptions == before.subscriptions
            && (view == next || (Mutates(e) && view.(updatedAt := next.updatedAt) == next)))
        || (after.subscriptions == before.subscriptions[w := next] && view == next))
    && after.audit == before.audit + EventEntries(w, row, next, e, env)
    && after.workspaces == before.workspaces && after.log == before.log
  }

  /** The expiry and the cancellation branch. */
  method ApplyCancellation(db: Session, sub: SubscriptionEntity, e: DodoEvent, env: Env) returns (o: WriteOutcome)
    requires sub.workspace in db.tables.subscriptions && sub.View() == db.tables.subscriptions[sub.workspace]
    requires IsExpiry(e) || e.eventType == EventType.SubscriptionCanceled
    modifies db`tables, db`faults, sub
    ensures o.Pass? ==> BranchDone(old(db.tables), db.tables, sub.workspace, old(sub.View()), sub.View(), e, env)
    ensures old(db.faults) == [] ==> o.Pass? && db.faults == []
  {
    ghost var row := sub.View();
    var previousStatus := sub.status;
    if e.rawEventName == EXPIRED_EVENT {
      sub.status := Expired;
    } else {
      sub.status := Canceled;
      sub.cancelAtPeriodEnd := false;
    }
    sub.lastProviderEvent := Webhook(e.eventType);
    sub.version := sub.version + 1;
    assert sub.View().(updatedAt := env.now) == UpdatedRow(row, e, env);
    :- db.RecordAuditEvent(sub.workspace, AuditEventType.SubscriptionCanceled, Dodo,
                           Audit.StatusDetails(previousStatus, sub.status), sub, env.now);
    o := Pass;
  }

  /** The created/updated branch: status, plan, seats, reference and period dates. */
  method ApplyPlanEvent(db: Session, sub: SubscriptionEntity, e: DodoEvent, env: Env) returns (o: WriteOutcome)
    requires sub.workspace in db.tables.subscriptions && sub.View() == db.tables.subscriptions[sub.workspace]
    requires IsPlanEvent(e)
    modifies db`tables, db`faults, sub
    ensures o.Pass? ==> BranchDone(old(db.tables), db.tables, sub.workspace, old(sub.View()), sub.View(), e, env)
    ensures o.Pass? ==> if Truthy(e.subscriptionStatus)
                        then Entitlements.DodoSpelling(e.subscriptionStatus.value, sub.status)
                        else sub.status == old(sub.status)
    ensures old(db.faults) == [] ==> o.Pass? && db.faults == []
  {
    ghost var row := sub.View();
    if Truthy(e.subscriptionStatus) {
      Entitlements.DodoSpellingsExactly(
        e.subscriptionStatus.value, Entitlements.NormalizeDodoStatus(e.subscriptionStatus.value));
    }
    var previousPlanId := sub.planId;
    var planChanged, referenceChanged := AssignPlan(sub, e, env);
    if planChanged || referenceChanged {
      var details: map<DetailKey, DetailValue> := map[];
      if planChanged {
        details := map[PreviousPlanIdKey := PlanDetail(previousPlanId), NewPlanIdKey := PlanDetail(sub.planId),
                       BillableSeatsKey := NumberDetail(sub.billableSeats)];
      }
      if referenceChanged {
        details := details + map[ReasonKey := ReasonDetail(ReferenceChanged)];
      }
      assert details == PlanChangeDetails(row, UpdatedRow(row, e, env), e, env.settings);
      :- db.RecordAuditEvent(sub.workspace, SubscriptionChanged, Dodo, details, sub, env.now);
    }
    o := Pass;
  }

  /** The assignments of that branch. */
  method AssignPlan(sub: SubscriptionEntity, e: DodoEvent, env: Env) returns (planChanged: bool, referenceChanged: bool)
    requires IsPlanEvent(e)
    modifies sub
    ensures sub.View().(updatedAt := env.now) == UpdatedRow(old(sub.View()), e, env)
    ensures planChanged == ChangesPlan(old(sub.View()), e, env.settings)
    ensures referenceChanged == ChangesReference(old(sub.View()), e)
  {
    planChanged := AssignStatusAndPlan(sub, e, env);
    referenceChanged := e.subscriptionReference.Some? && e.subscriptionReference != sub.subscriptionReference;
    if referenceChanged {
      sub.subscriptionReference := e.subscriptionReference;
    }
    AssignDates(sub, e);
    sub.lastProviderEvent := Webhook(e.eventType);
    sub.version := sub.version + 1;
  }

  method AssignStatusAndPlan(sub: SubscriptionEntity, e: DodoEvent, env: Env) returns (planChanged: bool)
    requires IsPlanEvent(e)
    modifies sub
    ensures planChanged == ChangesPlan(old(sub.View()), e, env.settings)
    ensures var next := UpdatedRow(old(sub.View()), e, env);
            sub.View() == old(sub.View()).(status := next.status, planId := next.planId,
                                           billableSeats := next.billableSeats,
                                           additionalSeatQuantity := next.additionalSeatQuantity)
  {
    if Truthy(e.subscriptionStatus) {
      sub.status := Entitlements.NormalizeDodoStatus(e.subscriptionStatus.value);
    }
    var resolvedPlanId := ResolvePlan(e, env.settings);
    planChanged := resolvedPlanId.Some? && resolvedPlanId.value != sub.planId;
    if planChanged {
      ChangePlan(sub, resolvedPlanId.value, if e.seatCountHint.Some? then e.seatCountHint.value else 0);
    }
  }

  method AssignDates(sub: SubscriptionEntity, e: DodoEvent)
    modifies sub
    ensures sub.View() == old(sub.View()).(
              currentPeriodStart := if e.periodStartHint.Some? then e.periodStartHint else old(sub.currentPeriodStart),
              currentPeriodEnd := if e.periodEndHint.Some? then e.periodEndHint else old(sub.currentPeriodEnd))
  {
    if e.periodStartHint.Some? {
      sub.currentPeriodStart := e.periodStartHint;
    }
    if e.periodEndHint.Some? {
      sub.currentPeriodEnd := e.periodEndHint;
    }
  }

  method ChangePlan(sub: SubscriptionEntity, plan: PaidPlan, additionalSeats: nat)
    modifies sub
    ensures sub.View() == old(sub.View()).(planId := plan, billableSeats := SeatsFor(plan, additionalSeats),
                                           additionalSeatQuantity := AdditionalSeatsFor(plan, additionalSeats))
  {
    sub.planId := plan;
    sub.billableSeats := if plan == Team then TEAM_INCLUDED_SEATS + additionalSeats else 0;
    sub.additionalSeatQuantity := if plan == Team then additionalSeats else 0;
  }

  /** The two branches of a payment that failed. */
  method ApplyPaymentFailure(db: Session, sub: SubscriptionEntity, e: DodoEvent, env: Env) returns (o: WriteOutcome)
    requires sub.workspace in db.tables.subscriptions && sub.View() == db.tables.subscriptions[sub.workspace]
    requires IsPaymentFailure(e)
    modifies db`tables, db`faults, sub
    ensures o.Pass? ==> BranchDone(old(db.tables), db.tables, sub.workspace, old(sub.View()), sub.View(), e, env)
    ensures old(db.faults) == [] ==> o.Pass? && db.faults == []
  {
    ghost var row := sub.View();
    sub.status := PastDue;
    sub.gracePeriodEnd := Some(env.now + env.settings.gracePeriodDays * SECONDS_PER_DAY);
    sub.lastProviderEvent := Webhook(e.eventType);
    sub.version := sub.version + 1;
    assert sub.View().(updatedAt := env.now) == UpdatedRow(row, e, env);
    var reason := if e.eventType == PaymentPastDue then PaymentPastDueReason else TransactionFailedReason;
    :- db.RecordAuditEvent(sub.workspace, PaymentFailed, Dodo, map[ReasonKey := ReasonDetail(reason)], sub, env.now);
    assert sub.View() == UpdatedRow(row, e, env);
    if e.eventType == PaymentPastDue {
      :- db.RecordAuditEvent(sub.workspace, GracePeriodStarted, Dodo,
                             map[GracePeriodEndKey := TimeDetail(sub.gracePeriodEnd)], sub, env.now);
    }
    o := Pass;
  }

  /** The branches that write no entry of their own: pause, successful payment, and the
      events that need no change. */
  method ApplyQuietly(sub: SubscriptionEntity, e: DodoEvent, ghost env: Env)
    requires !IsExpiry(e) && !IsPlanEvent(e) && !IsPaymentFailure(e) && e.eventType != EventType.SubscriptionCanceled
    modifies sub
    ensures sub.View() == UpdatedRow(old(sub.View()), e, env)
            || (Mutates(e) && sub.View().(updatedAt := env.now) == UpdatedRow(old(sub.View()), e, env))
  {
    if e.eventType == SubscriptionPaused {
      sub.status := Paused;
      sub.lastProviderEvent := Webhook(e.eventType);
      sub.version := sub.version + 1;
    } else if e.eventType == TransactionCompleted {
      if sub.status == PastDue || sub.status == Incomplete {
        sub.status := Active;
        sub.gracePeriodEnd := None;
      }
      sub.lastProviderEvent := Webhook(e.eventType);
      sub.version := sub.version + 1;
    }
  }

  /** The chain of branches that update the row the lookup found. */
  method ApplyBranch(db: Session, sub: SubscriptionEntity, e: DodoEvent, env: Env) returns (o: WriteOutcome)
    requires sub.workspace in db.tables.subscriptions && sub.View() == db.tables.subscriptions[sub.workspace]
    modifies db`tables, db`faults, sub
    ensures o.Pass? ==> BranchDone(old(db.tables), db.tables, sub.workspace, old(sub.View()), sub.View(), e, env)
    ensures old(db.faults) == [] ==> o.Pass? && db.faults == []
  {
    if e.rawEventName == EXPIRED_EVENT {
      o := ApplyCancellation(db, sub, e, env);
    } else if e.eventType == SubscriptionCreated || e.eventType == SubscriptionUpdated {
      o := ApplyPlanEvent(db, sub, e, env);
    } else if e.eventType == EventType.SubscriptionCanceled {
      o := ApplyCancellation(db, sub, e, env);
    } else if e.eventType == PaymentPastDue || e.eventType == TransactionFailed {
      o := ApplyPaymentFailure(db, sub, e, env);
    } else {
      ApplyQuietly(sub, e, env);
      o := Pass;
    }
  }

  /** The update of an existing row: the branch, the flush, and the status entry. */
  method UpdateSubscription(db: Session, sub: SubscriptionEntity, e: DodoEvent, env: Env) returns (o: WriteOutcome)
    requires sub.workspace in db.tables.subscriptions && sub.View() == db.tables.subscriptions[sub.workspace]
    modifies db`tables, db`faults, sub
    ensures o.Pass? ==>
              var w, row := sub.workspace, old(sub.View());
              var next := UpdatedRow(row, e, env);
              db.tables == old(db.tables).(
                subscriptions := old(db.tables.subscriptions)[w := next],
                audit := old(db.tables.audit) + EventEntries(w, row, next, e, env)
                    + StatusEntry(w, Dodo, row.status, next.status))
    ensures old(db.faults) == [] ==> o.Pass? && db.faults == []
  {
    ghost var row, next := sub.View(), UpdatedRow(sub.View(), e, env);
    var previousStatus := sub.status;
    :- ApplyBranch(db, sub, e, env);
    ghost var done := db.tables;
    ghost var view := sub.View();
    :- db.FlushSubscription(sub, env.now);
    StampedIsUpdated(done.subscriptions[sub.workspace], row, view, e, env);
    assert sub.View() == next;
    if previousStatus != sub.status {
      :- db.RecordAuditEvent(sub.workspace, SubscriptionChanged, Dodo, Audit.StatusDetails(previousStatus, sub.status),
                             sub, env.now);
    }
    o := Pass;
  }

  lemma StampedIsUpdated(stored: Subscription, row: Subscription, view: Subscription, e: DodoEvent, env: Env)
    requires var next := UpdatedRow(row, e, env);
             || (stored == row && (view == next || (Mutates(e) && view.(updatedAt := next.updatedAt) == next)))
             || (stored == next && view == next)
    ensures Stamped(stored, view, env.now) == UpdatedRow(row, e, env)
  {
  }

  /** `_apply_normalized_event`: the row the lookup found, and the error category of a
      lifecycle event that could not be associated with a workspace. */
  method ApplyNormalizedEvent(db: Session, e: DodoEvent, env: Env)
    returns (o: WriteOutcome, category: Option<ErrorCategory>, ghost found: Option<WorkspaceId>)
    modifies db`tables, db`faults
    ensures IsFirstMatch(old(db.tables.subscriptions), Dodo, e.subscriptionReference, e.customerReference, found)
    ensures o.Pass? ==> (db.tables, category) == Apply(old(db.tables), e, env, found)
    ensures old(db.faults) == [] ==> o.Pass? && db.faults == []
  {
    category := None;
    var w := db.FindSubscription(Dodo, e.subscriptionReference, e.customerReference);
    found := w;
    if w.None? {
      var created: bool;
      created :- CreateSubscriptionFromHint(db, e, env);
      if !created && IsLifecycle(e.eventType) {
        return Pass, Some(UnknownReference), found;
      }
      return Pass, None, found;
    }
    var sub := new SubscriptionEntity(w.value, db.tables.subscriptions[w.value]);
    var referenceTime := db.LatestProcessedOccurredAt(e.subscriptionReference, e.customerReference, e.externalEventId);
    if IsStale(e.occurredAt, sub.updatedAt, referenceTime) {
      :- db.RecordAuditEvent(sub.workspace, WebhookDuplicateIgnored, Dodo,
                             map[ReasonKey := ReasonDetail(StaleEventReason), EventTypeKey := EventDetail(e.eventType)],
                             sub, env.now);
      assert db.tables.subscriptions == old(db.tables.subscriptions);
      return Pass, None, found;
    }
    :- UpdateSubscription(db, sub, e, env);
    o := Pass;
  }

  /** How a call of the service ends: it returns a status, raises its processing error, or
      lets another exception through. */
  datatype Ending = Returned(outcome: Outcome) | ProcessingError | Unhandled

  /** The body of the `try` of `process_dodo_webhook`. */
  method Attempt(db: Session, e: DodoEvent, env: Env, event: WebhookEntity)
    returns (o: WriteOutcome, result: Outcome, ghost found: Option<WorkspaceId>)
    requires event.key == Key(e)
    modifies db`tables, db`faults, event
    ensures IsFirstMatch(old(db.tables.subscriptions), Dodo, e.subscriptionReference, e.customerReference, found)
    ensures o.Pass? ==>
              (db.tables, result)
              == (if e.eventType == Unknown
                  then (SetRow(old(db.tables), Key(e), MarkedProcessed(old(event.View()))), Acknowledged)
                  else Conclude(Apply(old(db.tables), e, env, found), Key(e), old(event.View())))
    ensures old(db.faults) == [] ==> o.Pass? && db.faults == []
  {
    result := Acknowledged;
    if e.eventType == Unknown {
      FirstMatchExists(db.tables.subscriptions, Dodo, e.subscriptionReference, e.customerReference);
      found :| IsFirstMatch(db.tables.subscriptions, Dodo, e.subscriptionReference, e.customerReference, found);
      :- db.MarkProcessed(event);
      return Pass, Acknowledged, found;
    }
    var category: Option<ErrorCategory>;
    o, category, found := ApplyNormalizedEvent(db, e, env);
    if o.Fail? {
      return;
    }
    if category.Some? {
      :- db.MarkFailed(event, category.value);
      return Pass, Unresolved, found;
    }
    :- db.MarkProcessed(event);
    return Pass, Delivered, found;
  }

  /** `process_dodo_webhook`. Whatever write fails inside the attempt, everything it did is
      undone and one failed row is committed before the error is raised; nothing is then
      left for the caller to roll back. When another session inserts the event's row first,
      all this holds of the tables that session committed. */
  method ProcessDodoWebhook(db: Session, raw: RawDodoEvent, id: string, env: Env, race: Option<Tables>)
    returns (ending: Ending, ghost found: Option<WorkspaceId>)
    requires db.tables == db.committed
    modifies db
    ensures var e := NormalizeDodoEvent(raw, id);
            var t := AtInsert(old(db.tables), Key(e), race);
            && IsFirstMatch(t.subscriptions, Dodo, e.subscriptionReference, e.customerReference, found)
            && (ending.Returned? ==>
                  && db.committed == t
                  && ending.outcome != Raised
                  && (db.tables, ending.outcome) == Process(t, e, env, found, false))
            && (ending.ProcessingError? ==>
                  && db.tables == db.committed
                  && (db.tables, Raised) == Process(t, e, env, found, true))
            && (ending.Unhandled? ==> db.committed == t)
    ensures old(db.faults) == [] && IsWon(EventKey(Dodo, id), race) ==> ending.Returned? && db.faults == []
  {
    var e := NormalizeDodoEvent(raw, id);
    ghost var t := AtInsert(db.tables, Key(e), race);
    FirstMatchExists(t.subscriptions, Dodo, e.subscriptionReference, e.customerReference);
    found :| IsFirstMatch(t.subscriptions, Dodo, e.subscriptionReference, e.customerReference, found);
    var o, event := db.CheckAndRecordPending(Key(e), FreshRow(e), race);
    if o.Fail? {
      return Unhandled, found;
    }
    assert db.tables == Begin(t, e);
    if event.processingStatus == Processed || event.processingStatus == DuplicateIgnored {
      o := db.MarkDuplicateIgnored(event);
      return if o.Pass? then Returned(Duplicate) else Unhandled, found;
    }
    var result;
    o, result, found := Attempt(db, e, env, event);
    if o.Pass? {
      return Returned(result), found;
    }
    db.Rollback();
    o, event := db.CheckAndRecordPending(Key(e), FreshRow(e), None);
    if o.Fail? {
      return Unhandled, found;
    }
    o := db.MarkFailed(event, Unexpected);
    if o.Fail? {
      return Unhandled, found;
    }
    o := db.Commit();
    return if o.Pass? then ProcessingError else Unhandled, found;
  }

  /** The row of a known customer after the delivery: as it was, when the delivery repeats a
      completed one or is overtaken, or as the payload says. */
  ghost predicate RowIsNamed(t: Tables, n: Tables, raw: RawDodoEvent, id: string, env: Env, w: WorkspaceId)
    requires w in t.subscriptions
  {
    && w in n.subscriptions
    && if IsRepeat(t, id) || IsOvertaken(t, raw, id, t.subscriptions[w]) then n.subscriptions[w] == t.subscriptions[w]
       else RowByName(raw, env, t.subscriptions[w], n.subscriptions[w])
  }

  /** The webhook route: commit when the service returns, roll back when it raises, close the
      session in any case. It leaves the database as it was or one delivery further on. */
  method DodoWebhookRoute(db: Session, raw: RawDodoEvent, id: string, env: Env, race: Option<Tables>)
    returns (ending: Ending, ghost found: Option<WorkspaceId>, ghost raised: bool)
    requires db.tables == db.committed
    modifies db
    ensures db.tables == db.committed
    ensures var t := AtInsert(old(db.committed), EventKey(Dodo, id), race);
            && IsFirstMatch(t.subscriptions, Dodo, raw.subscriptionId, raw.customerId, found)
            && db.committed
               == (if ending.Unhandled? then t else After(t, NormalizeDodoEvent(raw, id), env, found, raised))
            && (ending.Returned? && found.Some? ==> RowIsNamed(t, db.committed, raw, id, env, found.value))
    ensures old(db.faults) == [] && IsWon(EventKey(Dodo, id), race) ==> ending.Returned? && !raised
  {
    ghost var t := AtInsert(db.committed, EventKey(Dodo, id), race);
    ending, found := ProcessDodoWebhook(db, raw, id, env, race);
    raised := ending.ProcessingError?;
    if ending.Returned? {
      var o := db.Commit();
      if o.Fail? {
        ending := Unhandled;
      } else if found.Some? {
        DeliveryByName(t, raw, id, env, found.value);
      }
    } else {
      db.Rollback();
    }
  }
}
