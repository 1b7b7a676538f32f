/** The Paddle webhook service and reconciliation as they run, over a session whose writes
    may fail, proved to do what `PaddleProcessor` states. */
module PaddleService {
  import opened BillingTypes
  import opened Idempotency
  import opened Lookup
  import opened DodoProcessor
  import opened PaddleEffects
  import opened PaddleEvents
  import opened PaddleProcessor
  import opened Session
  import Audit
  import Entitlements
  import Pricing

  ghost predicate BranchDone(before: Tables, after: Tables, w: WorkspaceId, row: Subscription, view: Subscription,
                             e: PaddleEvent, env: Env) {
    var next := UpdatedPaddleRow(row, e, env);
    && (|| (after.subscriptions == before.subscriptions
            && (view == next || (view.version != row.version && view.(updatedAt := env.now) == next)))
        || (after.subscriptions == before.subscriptions[w := next] && view == next))
    && after.audit == before.audit + PaddleEntries(w, row, next, e, env)
    && after.workspaces == before.workspaces && after.log == before.log
  }

  /** The branches of the Paddle `_apply_normalized_event` that write audit entries. */
  method ApplyAudited(db: Session, sub: SubscriptionEntity, e: PaddleEvent, env: Env) returns (o: WriteOutcome)
    requires sub.workspace in db.tables.subscriptions && sub.View() == db.tables.subscriptions[sub.workspace]
    requires e.eventType == EventType.SubscriptionCanceled || Fails(e)
    modifies db`tables, db`faults, sub
    ensures o.Pass? ==> BranchDone(old(db.tables), db.tables, sub.workspace, old(sub.View()), sub.View(), e, env)
    ensures old(db.faults) == [] ==> o.Pass? && db.faults == []
  {
    ghost var row := sub.View();
    var previousStatus := sub.status;
    if e.eventType == EventType.SubscriptionCanceled {
      sub.status := Canceled;
      sub.cancelAtPeriodEnd := false;
    } else {
      sub.status := PastDue;
      sub.gracePeriodEnd := Some(env.now + env.settings.gracePeriodDays * SECONDS_PER_DAY);
    }
    sub.lastProviderEvent := Webhook(e.eventType);
    sub.version := sub.version + 1;
    assert sub.View().(updatedAt := env.now) == UpdatedPaddleRow(row, e, env);
    if e.eventType == EventType.SubscriptionCanceled {
      :- db.RecordAuditEvent(sub.workspace, AuditEventType.SubscriptionCanceled, Paddle,
                             Audit.StatusDetails(previousStatus, sub.status), sub, env.now);
    } else if e.eventType == PaymentPastDue {
      :- db.RecordAuditEvent(sub.workspace, PaymentFailed, Paddle, map[ReasonKey := ReasonDetail(PaymentPastDueReason)],
                             sub, env.now);
      assert sub.View() == UpdatedPaddleRow(row, e, env);
      :- db.RecordAuditEvent(sub.workspace, GracePeriodStarted, Paddle,
                             map[GracePeriodEndKey := TimeDetail(sub.gracePeriodEnd)], sub, env.now);
    } else {
      :- db.RecordAuditEvent(sub.workspace, PaymentFailed, Paddle,
                             map[ReasonKey := ReasonDetail(TransactionFailedReason)], sub, env.now);
    }
    o := Pass;
  }

  /** The branches that write no entry of their own. */
  method ApplyQuietly(sub: SubscriptionEntity, e: PaddleEvent, ghost env: Env)
    requires e.eventType != EventType.SubscriptionCanceled && !Fails(e) && e.eventType != Unknown
    modifies sub
    ensures var row, next := old(sub.View()), UpdatedPaddleRow(old(sub.View()), e, env);
            sub.View() == next || (sub.version != row.version && sub.View().(updatedAt := env.now) == next)
  {
    if e.eventType == SubscriptionCreated || e.eventType == SubscriptionUpdated || e.eventType == SubscriptionResumed {
      if Truthy(e.subscriptionStatus) {
        sub.status := Entitlements.NormalizePaddleStatus(e.subscriptionStatus.value);
      }
      sub.lastProviderEvent := Webhook(e.eventType);
      sub.version := sub.version + 1;
    } else if e.eventType == SubscriptionPaused {
      sub.status := Paused;
      sub.lastProviderEvent := Webhook(e.eventType);
      sub.version := sub.version + 1;
    } else if e.eventType == TransactionCompleted {
      if sub.status == PastDue || sub.status == Incomplete {
        sub.status := Active;
        sub.gracePeriodEnd := None;
      }
      sub.lastProviderEvent := Webhook(e.eventType);
      sub.version := sub.version + 1;
    }
  }

  /** The status after an event of a known type. */
  predicate StatusByType(e: PaddleEvent, before: Status, after: Status) {
    match e.eventType
    case SubscriptionCanceled => after == Canceled
    case SubscriptionPaused => after == Paused
    case PaymentPastDue => after == PastDue
    case TransactionFailed => after == PastDue
    case TransactionCompleted => after == if before == PastDue || before == Incomplete then Active else before
    case CustomerUpdated => after == before
    case Unknown => true
    case _ => // created, updated or resumed
      if Truthy(e.subscriptionStatus) then Entitlements.PaddleSpelling(e.subscriptionStatus.value, after)
      else after == before
  }

  lemma TypesDecideStatus(row: Subscription, e: PaddleEvent, env: Env)
    ensures StatusByType(e, row.status, UpdatedPaddleRow(row, e, env).status)
  {
    if Truthy(e.subscriptionStatus) {
      Entitlements.PaddleSpellingsExactly(
        e.subscriptionStatus.value, Entitlements.NormalizePaddleStatus(e.subscriptionStatus.value));
    }
  }

  method UpdateSubscription(db: Session, sub: SubscriptionEntity, e: PaddleEvent, env: Env) returns (o: WriteOutcome)
    requires sub.workspace in db.tables.subscriptions && sub.View() == db.tables.subscriptions[sub.workspace]
    requires e.eventType != Unknown
    modifies db`tables, db`faults, sub
    ensures o.Pass? ==>
              var w, row := sub.workspace, old(sub.View());
              var next := UpdatedPaddleRow(row, e, env);
              && StatusByType(e, row.status, next.status)
              && db.tables == old(db.tables).(
                   subscriptions := old(db.tables.subscriptions)[w := next],
                   audit := old(db.tables.audit) + PaddleEntries(w, row, next, e, env)
                       + StatusEntry(w, Paddle, row.status, next.status))
    ensures old(db.faults) == [] ==> o.Pass? && db.faults == []
  {
    ghost var row, next := sub.View(), UpdatedPaddleRow(sub.View(), e, env);
    TypesDecideStatus(row, e, env);
    var previousStatus := sub.status;
    if e.eventType == EventType.SubscriptionCanceled || Fails(e) {
      :- ApplyAudited(db, sub, e, env);
    } else {
      ApplyQuietly(sub, e, env);
    }
    ghost var done := db.tables;
    :- db.FlushSubscription(sub, env.now);
    assert sub.View() == next;
    assert db.tables.audit == done.audit;
    if previousStatus != sub.status {
      :- db.RecordAuditEvent(sub.workspace, SubscriptionChanged, Paddle,
                             Audit.StatusDetails(previousStatus, sub.status), sub, env.now);
    }
    o := Pass;
  }

  method ApplyNormalizedEvent(db: Session, e: PaddleEvent, env: Env)
    returns (o: WriteOutcome, ghost found: Option<WorkspaceId>)
    requires e.eventType != Unknown
    modifies db`tables, db`faults
    ensures IsFirstMatch(old(db.tables.subscriptions), Paddle, e.subscriptionReference, e.customerReference, found)
    ensures o.Pass? ==> db.tables == ApplyPaddle(old(db.tables), e, env, found)
    ensures old(db.faults) == [] ==> o.Pass? && db.faults == []
  {
    var w := db.FindSubscription(Paddle, e.subscriptionReference, e.customerReference);
    found := w;
    if w.None? {
      return Pass, found;
    }
    var sub := new SubscriptionEntity(w.value, db.tables.subscriptions[w.value]);
    if IsStale(e.occurredAt, sub.updatedAt, None) {
      :- db.RecordAuditEvent(sub.workspace, WebhookDuplicateIgnored, Paddle,
                             map[ReasonKey := ReasonDetail(StaleEventReason), EventTypeKey := EventDetail(e.eventType)],
                             sub, env.now);
      assert db.tables.subscriptions == old(db.tables.subscriptions);
      return Pass, found;
    }
    :- UpdateSubscription(db, sub, e, env);
    o := Pass;
  }

  datatype Ending = Returned(outcome: Outcome) | ProcessingError | Unhandled

  /** `process_paddle_webhook`. The failed mark is written into the transaction that the
      route then rolls back. When another session inserts the event's row first, all this
      holds of the tables that session committed. */
  method ProcessPaddleWebhook(db: Session, raw: RawPaddleEvent, env: Env, race: Option<Tables>)
    returns (ending: Ending, ghost found: Option<WorkspaceId>)
    requires db.tables == db.committed
    modifies db
    ensures var e := NormalizePaddleEvent(raw);
            var t := AtInsert(old(db.tables), PaddleKey(e), race);
            && db.committed == t
            && IsFirstMatch(t.subscriptions, Paddle, e.subscriptionReference, e.customerReference, found)
            && (ending.Returned? ==>
                  && ending.outcome != Raised
                  && (db.tables, ending.outcome) == ProcessPaddle(t, e, env, found, false))
            && (ending.ProcessingError? ==> ProcessPaddle(t, e, env, found, true) == (t, Raised))
    ensures old(db.faults) == [] && IsWon(EventKey(Paddle, raw.id), race) ==> ending.Returned? && db.faults == []
  {
    var e := NormalizePaddleEvent(raw);
    ghost var t := AtInsert(db.tables, PaddleKey(e), race);
    FirstMatchExists(t.subscriptions, Paddle, e.subscriptionReference, e.customerReference);
    found :| IsFirstMatch(t.subscriptions, Paddle, e.subscriptionReference, e.customerReference, found);
    var o, event := db.CheckAndRecordPending(
      PaddleKey(e), PendingRow(e.eventType, e.occurredAt, e.customerReference, e.subscriptionReference,
                               e.transactionReference), race);
    if o.Fail? {
      return Unhandled, found;
    }
    assert db.tables == BeginPaddle(t, e);
    if event.processingStatus == Processed || event.processingStatus == DuplicateIgnored {
      o := db.MarkDuplicateIgnored(event);
      return if o.Pass? then Returned(Duplicate) else Unhandled, found;
    }
    var result := Acknowledged;
    if e.eventType != Unknown {
      result := Delivered;
      o, found := ApplyNormalizedEvent(db, e, env);
    }
    if o.Pass? {
      o := db.MarkProcessed(event);
    }
    if o.Pass? {
      return Returned(result), found;
    }
    o := db.MarkFailed(event, Unexpected);
    return if o.Pass? then ProcessingError else Unhandled, found;
  }

  /** The row of a known customer after the delivery: as it was, when the delivery repeats a
      completed one or is older than the row's last write, or as the payload says. */
  predicate RowIsNamed(t: Tables, n: Tables, raw: RawPaddleEvent, env: Env, w: WorkspaceId)
    requires w in t.subscriptions
  {
    && w in n.subscriptions
    && if IsRepeat(t, raw) || IsOvertaken(raw, t.subscriptions[w]) then n.subscriptions[w] == t.subscriptions[w]
       else RowByName(raw, env, t.subscriptions[w], n.subscriptions[w])
  }

  /** The Paddle route: a raising attempt leaves the database as it was. */
  method PaddleWebhookRoute(db: Session, raw: RawPaddleEvent, env: Env, race: Option<Tables>)
    returns (ending: Ending, ghost found: Option<WorkspaceId>)
    requires db.tables == db.committed
    modifies db
    ensures db.tables == db.committed
    ensures var t := AtInsert(old(db.committed), EventKey(Paddle, raw.id), race);
            && IsFirstMatch(t.subscriptions, Paddle, SubscriptionId(raw), raw.customerId, found)
            && db.committed
               == (if ending.Returned? then AfterPaddle(t, NormalizePaddleEvent(raw), env, found, false) else t)
            && (ending.Returned? && found.Some? ==> RowIsNamed(t, db.committed, raw, env, found.value))
    ensures old(db.faults) == [] && IsWon(EventKey(Paddle, raw.id), race) ==> ending.Returned?
  {
    ghost var t := AtInsert(db.committed, EventKey(Paddle, raw.id), race);
    ending, found := ProcessPaddleWebhook(db, raw, env, race);
    if ending.Returned? {
      var o := db.Commit();
      if o.Fail? {
        ending := Unhandled;
      } else {
        DeliveryByName(t, raw, env, found);
      }
    } else {
      db.Rollback();
    }
  }

  /** `reconcile_workspace_subscription`, given the provider's answer for the stored
      reference, the workspace's member count, and whether the seat update sent to the
      provider raises. `sent` says whether the provider carried that update out. */
  method ReconcileWorkspaceSubscription(db: Session, w: WorkspaceId, snapshot: Option<PaddleSnapshot>, members: nat,
                                        updateRaises: bool, env: Env)
    returns (o: WriteOutcome, result: PaddleReconciliation, sent: bool)
    modifies db`tables, db`faults
    ensures db.committed == old(db.committed)
    ensures o.Pass? ==> (db.tables, result) == ReconcilePaddle(old(db.tables), w, snapshot, members, env)
    ensures o.Pass? ==> (sent <==> result == Reconciled(true))
    ensures sent ==> !updateRaises && ReconcilePaddle(old(db.tables), w, snapshot, members, env).1 == Reconciled(true)
    ensures old(db.faults) == [] && !updateRaises ==> o.Pass? && db.faults == []
  {
    result, sent := NoSubscriptionOnFile, false;
    if w !in db.tables.subscriptions || db.tables.subscriptions[w].provider != Paddle {
      return Pass, NoSubscriptionOnFile, false;
    }
    var sub := new SubscriptionEntity(w, db.tables.subscriptions[w]);
    if !Truthy(sub.subscriptionReference) {
      return Pass, NoSubscriptionOnFile, false;
    }
    if snapshot.None? {
      return Pass, SubscriptionNotFound, false;
    }
    var s := snapshot.value;
    if Truthy(sub.customerReference) && s.customerReference != ""
       && sub.customerReference != Some(s.customerReference) {
      return Pass, CustomerMismatch, false;
    }
    o, sent := WriteReconciliation(db, sub, s, members, updateRaises, env);
    result := Reconciled(sent);
  }

  method WriteReconciliation(db: Session, sub: SubscriptionEntity, s: PaddleSnapshot, members: nat,
                             updateRaises: bool, env: Env)
    returns (o: WriteOutcome, sent: bool)
    requires sub.workspace in db.tables.subscriptions && sub.View() == db.tables.subscriptions[sub.workspace]
    modifies db`tables, db`faults, sub
    ensures o.Pass? ==>
              var w, row := sub.workspace, old(sub.View());
              && sent == SeatPlan(s, members).needsUpdate
              && db.tables == old(db.tables).(
                   subscriptions := old(db.tables).subscriptions[w := ReconciledPaddleRow(row, s, env)],
                   audit := old(db.tables).audit + ReconciliationEntries(w, row, s, members, env))
    ensures sent ==> !updateRaises && SeatPlan(s, members).needsUpdate
    ensures old(db.faults) == [] && !updateRaises ==> o.Pass? && db.faults == []
  {
    sent := false;
    var previousStatus := sub.status;
    AssignSnapshot(sub, s, env);
    :- db.FlushSubscription(sub, env.now);

    var plan := Pricing.PlanSeatReconciliation(members, Max(0, s.billableSeats - 20));
    if plan.needsUpdate {
      if updateRaises {
        return Fail, false;
      }
      sent := true;
      :- db.RecordAuditEvent(
        sub.workspace, SeatCountChanged, Paddle,
        map[ReasonKey := ReasonDetail(SeatReconciliation), BillableSeatsKey := NumberDetail(members)], sub, env.now);
    }
    :- db.RecordAuditEvent(sub.workspace, ProviderReconciliation, Paddle,
                           Audit.StatusDetails(previousStatus, sub.status), sub, env.now);
    o := Pass;
  }

  /** The reconcile route: commit on return, not on a mismatch, which raises; close the
      session in any case. The database is as it was or reconciled as a whole; the provider
      may have been told of new seats even when it is as it was. */
  method ReconciliationRoute(db: Session, w: WorkspaceId, snapshot: Option<PaddleSnapshot>, members: nat,
                             updateRaises: bool, env: Env)
    returns (o: WriteOutcome, result: PaddleReconciliation, sent: bool)
    requires db.tables == db.committed
    modifies db
    ensures db.tables == db.committed
    ensures o.Pass? ==> (db.committed, result) == ReconcilePaddle(old(db.committed), w, snapshot, members, env)
    ensures o.Fail? ==> db.committed == old(db.committed)
    ensures sent ==> ReconcilePaddle(old(db.committed), w, snapshot, members, env).1 == Reconciled(true)
    ensures o.Pass? ==> (sent <==> result == Reconciled(true))
    ensures old(db.faults) == [] && !updateRaises ==> o.Pass? && db.faults == []
  {
    o, result, sent := ReconcileWorkspaceSubscription(db, w, snapshot, members, updateRaises, env);
    if o.Pass? && !result.CustomerMismatch? {
      o := db.Commit();
    } else {
      db.Rollback();
    }
  }

  method AssignSnapshot(sub: SubscriptionEntity, s: PaddleSnapshot, ghost env: Env)
    modifies sub
    ensures sub.version != old(sub.version)
    ensures sub.View().(updatedAt := env.now) == ReconciledPaddleRow(old(sub.View()), s, env)
  {
    sub.status := Entitlements.NormalizePaddleStatus(s.status);
    sub.currentPeriodStart := s.currentPeriodStart;
    sub.currentPeriodEnd := s.currentPeriodEnd;
    sub.cancelAtPeriodEnd := s.cancelAtPeriodEnd;
    sub.version := sub.version + 1;
  }
}
