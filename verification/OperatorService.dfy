/** The operator commands as they run, proved to do what `DodoOperator` states. */
module OperatorService {
  import opened BillingTypes
  import opened DodoOperator
  import opened Session
  import Audit
  import Entitlements

  /** `reconcile_workspace_from_dodo_subscription`; a refusal is the error it raises. */
  method ReconcileFromDodo(db: Session, w: WorkspaceId, id: string, fetch: ProviderOracle, live: bool, apply: bool,
                           env: Env)
    returns (o: WriteOutcome, outcome: ReconcileOutcome)
    modifies db`tables, db`faults
    ensures o.Pass? ==> (db.tables, outcome) == Reconcile(old(db.tables), w, id, fetch, live, apply, env)
    ensures db.committed == old(db.committed)
    ensures old(db.faults) == [] ==> o.Pass? && db.faults == []
  {
    var s := env.settings;
    if w !in db.tables.workspaces {
      return Pass, Refused(WorkspaceNotFound);
    }
    var replacingExisting := w in db.tables.subscriptions;
    if replacingExisting && db.tables.subscriptions[w].subscriptionReference == Some(id) {
      return Pass, AlreadyReconciled;
    }
    if replacingExisting && db.tables.subscriptions[w].provider != Dodo {
      return Pass, Refused(HasOtherProvider);
    }
    var environment := CheckEnvironment(s, live);
    if environment.Some? {
      return Pass, Refused(environment.value);
    }
    if replacingExisting {
      var refusal := VerifyExisting(db.tables.subscriptions[w], fetch);
      if refusal.Some? {
        return Pass, Refused(refusal.value);
      }
    }
    var answer := fetch(id);
    if answer.NotFound404? || answer.FetchError? {
      return Pass, Refused(ApiError);
    }
    if answer.data.None? {
      return Pass, Refused(SubscriptionNotFound);
    }
    var data := answer.data.value;
    if data.status != "active" {
      return Pass, Refused(TargetNotActive);
    }
    if data.metadataWorkspace.Some? && data.metadataWorkspace.value != w {
      return Pass, Refused(WorkspaceMismatch);
    }
    var snapshot := SnapshotOf(data, s);
    if Some(data.productId) != s.proProductId && Some(data.productId) != s.teamProductId {
      return Pass, Refused(UnknownProduct);
    }
    if replacingExisting && Truthy(db.tables.subscriptions[w].customerReference) {
      if snapshot.customerReference.Some?
         && snapshot.customerReference != db.tables.subscriptions[w].customerReference {
        return Pass, Refused(CustomerMismatch);
      }
    }
    if replacingExisting && exists v :: v in db.tables.subscriptions && v != w
                                        && db.tables.subscriptions[v].subscriptionReference == Some(id) {
      return Pass, Refused(AttachedElsewhere);
    }
    if !apply {
      return Pass, DryRun(replacingExisting);
    }
    outcome := if replacingExisting then Replaced else Created;
    if replacingExisting {
      :- ReplaceRow(db, w, snapshot, env);
    } else {
      :- CreateRow(db, w, snapshot, env);
    }
    return Pass, outcome;
  }

  /** The command around it: commit when a row was created or replaced, close the session in
      any case. Whatever write fails, the database is as it was or reconciled as a whole. */
  method ReconcileCommand(db: Session, w: WorkspaceId, id: string, fetch: ProviderOracle, live: bool, apply: bool,
                          env: Env)
    returns (o: WriteOutcome, outcome: ReconcileOutcome)
    requires db.tables == db.committed
    modifies db
    ensures db.tables == db.committed
    ensures o.Pass? ==> (db.committed, outcome) == Reconcile(old(db.committed), w, id, fetch, live, apply, env)
    ensures o.Fail? ==> db.committed == old(db.committed)
    ensures old(db.faults) == [] ==> o.Pass? && db.faults == []
  {
    o, outcome := ReconcileFromDodo(db, w, id, fetch, live, apply, env);
    if o.Pass? && (outcome.Created? || outcome.Replaced?) {
      o := db.Commit();
    } else {
      db.Rollback();
    }
  }

  /** Re-verify the existing row against the provider before replacing it. */
  method VerifyExisting(row: Subscription, fetch: ProviderOracle) returns (refusal: Option<Refusal>)
    ensures refusal == CheckExisting(row, fetch)
  {
    if !Truthy(row.subscriptionReference) {
      if row.status != Canceled && row.status != Expired && row.status != Incomplete {
        return Some(ExistingStillLive);
      }
      return None;
    }
    var answer := fetch(row.subscriptionReference.value);
    if answer.FetchError? {
      return Some(ExistingUnverifiable);
    }
    if answer.Body? && answer.data.Some? {
      var status := answer.data.value.status;
      if RawLive(status) {
        return Some(ExistingStillLive);
      }
      if !RawReplaceable(status) {
        return Some(ExistingUnrecognized);
      }
    }
    return None;
  }

  method ReplaceRow(db: Session, w: WorkspaceId, s: Snapshot, env: Env) returns (o: WriteOutcome)
    requires w in db.tables.subscriptions && db.tables.subscriptions[w].provider == Dodo
    modifies db`tables, db`faults
    ensures o.Pass? ==>
              var row := old(db.tables).subscriptions[w];
              db.tables == old(db.tables).(subscriptions := old(db.tables).subscriptions[w := ReplacedBy(row, s, env)],
                                           audit := old(db.tables).audit + [ReconciliationEntry(w, Some(row), s)])
    ensures old(db.faults) == [] ==> o.Pass? && db.faults == []
  {
    var existing := new SubscriptionEntity(w, db.tables.subscriptions[w]);
    var previousPlanId, previousReference := existing.planId, existing.subscriptionReference;
    AssignSnapshot(existing, s, env);
    :- db.FlushSubscription(existing, env.now);
    :- db.RecordAuditEvent(
      w, ProviderReconciliation, Dodo,
      map[PreviousPlanIdKey := PlanDetail(previousPlanId), NewPlanIdKey := PlanDetail(s.planId),
          BillingIntervalKey := IntervalDetail(Month), BillableSeatsKey := NumberDetail(s.billableSeats),
          ReasonKey := ReasonDetail(ReplacedObsolete(previousReference))],
      existing, env.now);
    o := Pass;
  }

  /** The assignments that put the fetched subscription in the place of the obsolete one. */
  method AssignSnapshot(existing: SubscriptionEntity, s: Snapshot, ghost env: Env)
    requires existing.provider == Dodo
    modifies existing
    ensures existing.version != old(existing.version)
    ensures existing.View().(updatedAt := env.now) == ReplacedBy(old(existing.View()), s, env)
  {
    existing.subscriptionReference := s.subscriptionReference;
    existing.customerReference := if s.customerReference.Some? then s.customerReference else existing.customerReference;
    AssignTerms(existing, s);
    existing.lastProviderEvent := ReconciledFromDodo;
    existing.version := existing.version + 1;
  }

  method AssignTerms(existing: SubscriptionEntity, s: Snapshot)
    modifies existing
    ensures existing.View() == old(existing.View()).(
              planId := s.planId, billingInterval := Month, status := Entitlements.NormalizeDodoStatus(s.status),
              billableSeats := s.billableSeats, additionalSeatQuantity := AdditionalSeats(s),
              currentPeriodStart := s.periodStart, currentPeriodEnd := s.periodEnd,
              cancelAtPeriodEnd := s.cancelAtPeriodEnd)
  {
    existing.planId := s.planId;
    existing.billingInterval := Month;
    existing.status := Entitlements.NormalizeDodoStatus(s.status);
    existing.billableSeats := s.billableSeats;
    existing.additionalSeatQuantity := AdditionalSeats(s);
    existing.currentPeriodStart := s.periodStart;
    existing.currentPeriodEnd := s.periodEnd;
    existing.cancelAtPeriodEnd := s.cancelAtPeriodEnd;
  }

  method CreateRow(db: Session, w: WorkspaceId, s: Snapshot, env: Env) returns (o: WriteOutcome)
    requires w !in db.tables.subscriptions
    modifies db`tables, db`faults
    ensures o.Pass? ==>
              db.tables == old(db.tables).(subscriptions := old(db.tables).subscriptions[w := CreatedFrom(s, env)],
                                           audit := old(db.tables).audit + [ReconciliationEntry(w, None, s)])
    ensures old(db.faults) == [] ==> o.Pass? && db.faults == []
  {
    var row := Subscription(Dodo, s.customerReference, s.subscriptionReference, s.planId, Month,
                            Entitlements.NormalizeDodoStatus(s.status), s.billableSeats, AdditionalSeats(s),
                            s.periodStart, s.periodEnd, s.cancelAtPeriodEnd, None, ReconciledFromDodo, 0, env.now);
    :- db.AddSubscription(w, row);
    var sub := new SubscriptionEntity(w, row);
    :- db.RecordAuditEvent(
      w, ProviderReconciliation, Dodo,
      map[PlanIdKey := PlanDetail(s.planId), BillingIntervalKey := IntervalDetail(Month),
          BillableSeatsKey := NumberDetail(s.billableSeats)],
      sub, env.now);
    o := Pass;
  }

  /** `prepare_dodo_workspace_for_live_pilot`. */
  method PrepareForLivePilot(db: Session, w: WorkspaceId, expected: string, apply: bool, env: Env)
    returns (o: WriteOutcome, outcome: PrepareOutcome)
    modifies db`tables, db`faults
    ensures o.Pass? ==> (db.tables, outcome) == Prepare(old(db.tables), w, expected, apply, env)
    ensures db.committed == old(db.committed)
    ensures old(db.faults) == [] ==> o.Pass? && db.faults == []
  {
    outcome := UnknownWorkspace;
    if w !in db.tables.workspaces {
      return Pass, UnknownWorkspace;
    }
    if w !in db.tables.subscriptions {
      return Pass, NoSubscription;
    }
    var sub := new SubscriptionEntity(w, db.tables.subscriptions[w]);
    if sub.provider != Dodo {
      return Pass, NotDodo;
    }
    if sub.lastProviderEvent == PreparedForLiveCutover {
      return Pass, AlreadyPrepared;
    }
    if sub.subscriptionReference != Some(expected) {
      return Pass, ReferenceMismatch;
    }
    if !apply {
      return Pass, WouldPrepare;
    }
    :- PrepareRow(db, sub, env);
    return Pass, Prepared;
  }

  /** The command around it: commit when the row was prepared, close the session in any case. */
  method PrepareCommand(db: Session, w: WorkspaceId, expected: string, apply: bool, env: Env)
    returns (o: WriteOutcome, outcome: PrepareOutcome)
    requires db.tables == db.committed
    modifies db
    ensures db.tables == db.committed
    ensures o.Pass? ==> (db.committed, outcome) == Prepare(old(db.committed), w, expected, apply, env)
    ensures o.Fail? ==> db.committed == old(db.committed)
    ensures old(db.faults) == [] ==> o.Pass? && db.faults == []
  {
    o, outcome := PrepareForLivePilot(db, w, expected, apply, env);
    if o.Pass? && outcome == Prepared {
      o := db.Commit();
    } else {
      db.Rollback();
    }
  }

  /** Mark the row's test subscription obsolete. */
  method PrepareRow(db: Session, sub: SubscriptionEntity, env: Env) returns (o: WriteOutcome)
    requires sub.workspace in db.tables.subscriptions && sub.View() == db.tables.subscriptions[sub.workspace]
    modifies db`tables, db`faults, sub
    ensures o.Pass? ==>
              var w, row := sub.workspace, old(sub.View());
              db.tables == old(db.tables).(subscriptions := old(db.tables).subscriptions[w := PreparedRow(row, env)],
                                           audit := old(db.tables).audit + [PreparationEntry(w, row)])
    ensures old(db.faults) == [] ==> o.Pass? && db.faults == []
  {
    var previousStatus, previousReference := sub.status, sub.subscriptionReference;
    var previousCustomer := sub.customerReference;
    sub.status := Canceled;
    sub.subscriptionReference := None;
    sub.customerReference := None;
    sub.lastProviderEvent := PreparedForLiveCutover;
    sub.version := sub.version + 1;
    :- db.FlushSubscription(sub, env.now);
    :- db.RecordAuditEvent(
      sub.workspace, SubscriptionChanged, Dodo,
      Audit.StatusDetails(previousStatus, Canceled)
          + map[ReasonKey := ReasonDetail(PreparedForPilot(previousReference, previousCustomer))],
      sub, env.now);
    o := Pass;
  }
}
