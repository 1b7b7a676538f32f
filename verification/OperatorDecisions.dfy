/** When the operator commands write, which obstacle they report otherwise, and what the rows
    they write hold: from the command's arguments and the provider's answers to the tables. */
module OperatorDecisions {
  import opened BillingTypes
  import opened DodoOperator
  import Audit

  // ----- Reconciliation -----

  /** The subscription the provider reports under the id asked for. */
  function Reported(fetch: ProviderOracle, id: string): Option<DodoSubscription> {
    match fetch(id)
    case Body(d) => d
    case _ => None
  }

  /** The condition each refusal stands for, whatever else is the case. */
  predicate Obstructs(r: Refusal, t: Tables, w: WorkspaceId, id: string, fetch: ProviderOracle, live: bool,
                      s: Settings) {
    var row := if w in t.subscriptions then Some(t.subscriptions[w]) else None;
    match r
    case WorkspaceNotFound => w !in t.workspaces
    case HasOtherProvider => row.Some? && row.value.provider != Dodo
    case DodoNotConfigured => !s.dodoConfigured
    case EnvironmentNotConfigured => s.dodoEnvironment == NotConfigured
    case LiveWithoutFlag => s.dodoEnvironment == LiveMode && !live
    case LiveFlagOnTest => s.dodoEnvironment == TestMode && live
    case ExistingStillLive => row.Some? && ExistingIsLive(row.value, fetch)
    case ExistingUnverifiable => row.Some? && Truthy(row.value.subscriptionReference)
                                 && fetch(row.value.subscriptionReference.value) == FetchError
    case ExistingUnrecognized => row.Some? && ExistingIsUnrecognized(row.value, fetch)
    case ApiError => !fetch(id).Body?
    case SubscriptionNotFound => fetch(id) == Body(None)
    case TargetNotActive => Reported(fetch, id).Some? && Reported(fetch, id).value.status != "active"
    case WorkspaceMismatch => Reported(fetch, id).Some? && Reported(fetch, id).value.metadataWorkspace.Some?
                              && Reported(fetch, id).value.metadataWorkspace.value != w
    case UnknownProduct => Reported(fetch, id).Some?
                           && Some(Reported(fetch, id).value.productId) != s.proProductId
                           && Some(Reported(fetch, id).value.productId) != s.teamProductId
    case CustomerMismatch => row.Some? && Truthy(row.value.customerReference) && Reported(fetch, id).Some?
                             && Reported(fetch, id).value.customerId != ""
                             && row.value.customerReference != Some(Reported(fetch, id).value.customerId)
    case AttachedElsewhere => row.Some? && exists v :: v in t.subscriptions && v != w
                                                       && t.subscriptions[v].subscriptionReference == Some(id)
  }

  /** The subscription on file may still be live: by its own status when it has no reference,
      else by what the provider says of it. */
  predicate ExistingIsLive(row: Subscription, fetch: ProviderOracle) {
    if Truthy(row.subscriptionReference) then
      && Reported(fetch, row.subscriptionReference.value).Some?
      && Reported(fetch, row.subscriptionReference.value).value.status in {"active", "on_hold", "pending"}
    else row.status in {Trialing, Active, PastDue, GracePeriod, Paused}
  }

  predicate ExistingIsUnrecognized(row: Subscription, fetch: ProviderOracle) {
    && Truthy(row.subscriptionReference)
    && Reported(fetch, row.subscriptionReference.value).Some?
    && Reported(fetch, row.subscriptionReference.value).value.status
       !in {"active", "on_hold", "pending", "cancelled", "canceled", "failed", "expired"}
  }

  /** The order in which the obstacles are looked for; those of one place exclude each other. */
  function Place(r: Refusal): nat {
    match r
    case WorkspaceNotFound => 0
    case HasOtherProvider => 1
    case DodoNotConfigured => 2
    case EnvironmentNotConfigured => 3
    case LiveWithoutFlag => 3
    case LiveFlagOnTest => 3
    case ExistingStillLive => 4
    case ExistingUnverifiable => 4
    case ExistingUnrecognized => 4
    case ApiError => 5
    case SubscriptionNotFound => 5
    case TargetNotActive => 6
    case WorkspaceMismatch => 7
    case UnknownProduct => 8
    case CustomerMismatch => 9
    case AttachedElsewhere => 10
  }

  /** The obstacle is there and none is in an earlier place. */
  ghost predicate IsFirstObstacle(r: Refusal, t: Tables, w: WorkspaceId, id: string, fetch: ProviderOracle, live: bool,
                                  s: Settings) {
    && Obstructs(r, t, w, id, fetch, live, s)
    && forall q: Refusal :: Place(q) < Place(r) ==> !Obstructs(q, t, w, id, fetch, live, s)
  }

  predicate IsReconciled(t: Tables, w: WorkspaceId, id: string) {
    w in t.workspaces && w in t.subscriptions && t.subscriptions[w].subscriptionReference == Some(id)
  }

  lemma VerifyRefusesExactly(t: Tables, w: WorkspaceId, id: string, fetch: ProviderOracle, live: bool, s: Settings,
                             r: Refusal)
    requires w in t.workspaces
    ensures Verify(t, w, id, fetch, live, s) == Failure(r) <==> IsFirstObstacle(r, t, w, id, fetch, live, s)
  {
    var v := Verify(t, w, id, fetch, live, s);
    FirstRefusal(t, w, id, fetch, live, s);
    if IsFirstObstacle(r, t, w, id, fetch, live, s) && v.Failure? && v.error != r {
      ObstaclesExclude(t, w, id, fetch, live, s, v.error, r);
    }
  }

  /** Obstacles of one place exclude each other. */
  lemma ObstaclesExclude(t: Tables, w: WorkspaceId, id: string, fetch: ProviderOracle, live: bool, s: Settings,
                         q: Refusal, r: Refusal)
    requires Place(q) == Place(r)
    requires Obstructs(q, t, w, id, fetch, live, s) && Obstructs(r, t, w, id, fetch, live, s)
    ensures q == r
  {
  }

  lemma ExistingIsJudged(row: Subscription, fetch: ProviderOracle)
    ensures var refusal := CheckExisting(row, fetch);
            && (refusal == Some(ExistingStillLive) <==> ExistingIsLive(row, fetch))
            && (refusal == Some(ExistingUnverifiable)
                <==> Truthy(row.subscriptionReference) && fetch(row.subscriptionReference.value) == FetchError)
            && (refusal == Some(ExistingUnrecognized) <==> ExistingIsUnrecognized(row, fetch))
  {
  }

  /** An obstacle makes verification refuse, for it or for one in no later place. */
  lemma ObstacleIsReported(t: Tables, w: WorkspaceId, id: string, fetch: ProviderOracle, live: bool, s: Settings,
                           q: Refusal)
    requires w in t.workspaces && Obstructs(q, t, w, id, fetch, live, s)
    ensures Verify(t, w, id, fetch, live, s).Failure? && Place(Verify(t, w, id, fetch, live, s).error) <= Place(q)
  {
    if w in t.subscriptions {
      ExistingIsJudged(t.subscriptions[w], fetch);
    }
    match q
    case CustomerMismatch => assert Verify(t, w, id, fetch, live, s).Failure?;
    case AttachedElsewhere => assert AttachedToAnother(t.subscriptions, w, id);
    case _ =>
  }

  lemma RefusalIsObstacle(t: Tables, w: WorkspaceId, id: string, fetch: ProviderOracle, live: bool, s: Settings)
    requires w in t.workspaces && Verify(t, w, id, fetch, live, s).Failure?
    ensures Obstructs(Verify(t, w, id, fetch, live, s).error, t, w, id, fetch, live, s)
  {
  }

  /** What verification reports is a first obstacle; when it passes there is none. */
  lemma FirstRefusal(t: Tables, w: WorkspaceId, id: string, fetch: ProviderOracle, live: bool, s: Settings)
    requires w in t.workspaces
    ensures var v := Verify(t, w, id, fetch, live, s);
            if v.Failure? then IsFirstObstacle(v.error, t, w, id, fetch, live, s)
            else forall r: Refusal :: !Obstructs(r, t, w, id, fetch, live, s)
  {
    var v := Verify(t, w, id, fetch, live, s);
    forall q: Refusal | Obstructs(q, t, w, id, fetch, live, s) ensures v.Failure? && Place(v.error) <= Place(q) {
      ObstacleIsReported(t, w, id, fetch, live, s, q);
    }
    if v.Failure? {
      RefusalIsObstacle(t, w, id, fetch, live, s);
    }
  }

  /** What the command reports: that the subscription is reconciled already, or the first
      obstacle in the order above, or, when there is neither, what it wrote or would write. */
  lemma ReconcileReportsExactly(t: Tables, w: WorkspaceId, id: string, fetch: ProviderOracle, live: bool, apply: bool,
                                env: Env, r: Refusal)
    ensures var (n, outcome) := Reconcile(t, w, id, fetch, live, apply, env);
            && (outcome == AlreadyReconciled <==> IsReconciled(t, w, id))
            && (outcome == Refused(r)
                <==> !IsReconciled(t, w, id) && IsFirstObstacle(r, t, w, id, fetch, live, env.settings))
            && (outcome in {Created, Replaced, DryRun(true), DryRun(false)}
                <==> !IsReconciled(t, w, id)
                     && forall q: Refusal :: !Obstructs(q, t, w, id, fetch, live, env.settings))
            && (outcome in {Created, Replaced} ==> apply && (outcome == Replaced <==> w in t.subscriptions))
            && (outcome.DryRun? ==> !apply && (outcome.wouldReplace <==> w in t.subscriptions))
            && (outcome !in {Created, Replaced} ==> n == t)
  {
    var s := env.settings;
    if w in t.workspaces {
      FirstRefusal(t, w, id, fetch, live, s);
      VerifyRefusesExactly(t, w, id, fetch, live, s, r);
    } else {
      assert Obstructs(WorkspaceNotFound, t, w, id, fetch, live, s);
    }
  }

  /** A write never happens in the wrong environment. */
  lemma WritesInItsEnvironment(t: Tables, w: WorkspaceId, id: string, fetch: ProviderOracle, live: bool, apply: bool,
                               env: Env)
    requires Reconcile(t, w, id, fetch, live, apply, env).0 != t
    ensures env.settings.dodoConfigured && (env.settings.dodoEnvironment == LiveMode <==> live)
    ensures env.settings.dodoEnvironment == TestMode <==> !live
  {
  }

  // ----- What a reconciliation writes -----

  /** The quantity of the last addon with this id, or 0. */
  predicate IsQuantity(addons: seq<(Option<string>, int)>, addon: Option<string>, q: int) {
    if exists i :: 0 <= i < |addons| && addons[i].0 == addon
    then exists i :: && 0 <= i < |addons| && addons[i] == (addon, q)
                     && forall j :: i < j < |addons| ==> addons[j].0 != addon
    else q == 0
  }

  lemma {:induction false} AddonQuantityExactly(addons: seq<(Option<string>, int)>, addon: Option<string>)
    ensures IsQuantity(addons, addon, AddonQuantity(addons, addon))
  {
    if addons != [] {
      var init, last := addons[..|addons| - 1], addons[|addons| - 1];
      if last.0 == addon {
        assert addons[|addons| - 1] == (addon, last.1);
      } else {
        AddonQuantityExactly(init, addon);
        assert forall i :: 0 <= i < |init| ==> init[i] == addons[i];
        if exists i :: 0 <= i < |addons| && addons[i].0 == addon {
          var i :| && 0 <= i < |init| && init[i] == (addon, AddonQuantity(init, addon))
                   && forall j :: i < j < |init| ==> init[j].0 != addon;
          assert addons[i] == (addon, AddonQuantity(addons, addon));
        }
      }
    }
  }

  /** The row after the reconciliation: everything from the report, except that a replaced row
      keeps its grace period end, and its customer when none is reported. */
  predicate RowByReport(d: DodoSubscription, env: Env, before: Option<Subscription>, next: Subscription) {
    var isPro := Some(d.productId) == env.settings.proProductId;
    && next.provider == Dodo
    && next.subscriptionReference == (if d.subscriptionId == "" then None else Some(d.subscriptionId))
    && next.customerReference
       == (if d.customerId != "" then Some(d.customerId)
           else if before.Some? then before.value.customerReference else None)
    && next.planId == (if isPro then Pro else Team) && next.billingInterval == Month && next.status == Active
    && (if isPro then next.billableSeats == 0 == next.additionalSeatQuantity
        else
          && IsQuantity(d.addons, env.settings.teamSeatAddonId, next.billableSeats - 20)
          && next.additionalSeatQuantity == if next.billableSeats > 20 then next.billableSeats - 20 else 0)
    && next.currentPeriodStart == d.previousBillingDate && next.currentPeriodEnd == d.nextBillingDate
    && next.cancelAtPeriodEnd == d.cancelAtNextBillingDate
    && next.gracePeriodEnd == (if before.Some? then before.value.gracePeriodEnd else None)
    && next.lastProviderEvent == ReconciledFromDodo
    && next.version == (if before.Some? then before.value.version + 1 else 0) && next.updatedAt == env.now
  }

  /** The entry beside it. */
  function ReportEntry(w: WorkspaceId, before: Option<Subscription>, next: Subscription): AuditEvent {
    AuditEvent(w, ProviderReconciliation, Some(Dodo),
               map[BillingIntervalKey := IntervalDetail(Month), BillableSeatsKey := NumberDetail(next.billableSeats)]
               + if before.None? then map[PlanIdKey := PlanDetail(next.planId)]
                 else map[PreviousPlanIdKey := PlanDetail(before.value.planId), NewPlanIdKey := PlanDetail(next.planId),
                          ReasonKey := ReasonDetail(ReplacedObsolete(before.value.subscriptionReference))])
  }

  lemma ReconcileWritesTheReport(t: Tables, w: WorkspaceId, id: string, fetch: ProviderOracle, live: bool, apply: bool,
                                 env: Env)
    requires Reconcile(t, w, id, fetch, live, apply, env).1 in {Created, Replaced}
    ensures Reported(fetch, id).Some?
    ensures var n, d := Reconcile(t, w, id, fetch, live, apply, env).0, Reported(fetch, id).value;
            var before := if w in t.subscriptions then Some(t.subscriptions[w]) else None;
            && w in n.subscriptions
            && RowByReport(d, env, before, n.subscriptions[w])
            && n == t.(subscriptions := t.subscriptions[w := n.subscriptions[w]],
                       audit := t.audit + [ReportEntry(w, before, n.subscriptions[w])])
  {
    var n, d := Reconcile(t, w, id, fetch, live, apply, env).0, Reported(fetch, id).value;
    var before := if w in t.subscriptions then Some(t.subscriptions[w]) else None;
    AddonQuantityExactly(d.addons, env.settings.teamSeatAddonId);
    assert d.status == "active";
    ReportEntryIsWritten(w, before, SnapshotOf(d, env.settings), n.subscriptions[w]);
  }

  lemma ReportEntryIsWritten(w: WorkspaceId, before: Option<Subscription>, s: Snapshot, next: Subscription)
    requires next.planId == s.planId && next.billableSeats == s.billableSeats
    ensures ReconciliationEntry(w, before, s) == ReportEntry(w, before, next)
  {
    var details := ReportEntry(w, before, next).details;
    Audit.FilterKeepsStatusDetails(details);
    assert Audit.SafeDetails(details) == details;
    if before.None? {
      assert details == map[PlanIdKey := PlanDetail(s.planId), BillingIntervalKey := IntervalDetail(Month),
                            BillableSeatsKey := NumberDetail(s.billableSeats)];
    } else {
      var row := before.value;
      assert details == map[PreviousPlanIdKey := PlanDetail(row.planId), NewPlanIdKey := PlanDetail(s.planId),
                            BillingIntervalKey := IntervalDetail(Month),
                            BillableSeatsKey := NumberDetail(s.billableSeats),
                            ReasonKey := ReasonDetail(ReplacedObsolete(row.subscriptionReference))];
    }
  }

  // ----- Preparing the live pilot -----

  /** What the preparation reports: the first of these that is the case. */
  lemma PrepareReportsExactly(t: Tables, w: WorkspaceId, expected: string, apply: bool, env: Env)
    ensures var (n, outcome) := Prepare(t, w, expected, apply, env);
            && (outcome == UnknownWorkspace <==> w !in t.workspaces)
            && (w in t.workspaces ==>
                  && (outcome == NoSubscription <==> w !in t.subscriptions)
                  && (w in t.subscriptions ==>
                        var row := t.subscriptions[w];
                        && (outcome == NotDodo <==> row.provider in {Stripe, Paddle})
                        && (row.provider == Dodo ==>
                              && (outcome == AlreadyPrepared <==> row.lastProviderEvent == PreparedForLiveCutover)
                              && (row.lastProviderEvent != PreparedForLiveCutover ==>
                                    && (outcome == ReferenceMismatch <==> row.subscriptionReference != Some(expected))
                                    && (row.subscriptionReference == Some(expected) ==>
                                          outcome == if apply then Prepared else WouldPrepare)))))
            && (outcome != Prepared ==> n == t)
  {
  }

  /** The row is canceled, loses both references and is marked; nothing else of it changes. The
      entry keeps what it was. */
  lemma PreparationWrites(t: Tables, w: WorkspaceId, expected: string, apply: bool, env: Env)
    requires Prepare(t, w, expected, apply, env).1 == Prepared
    ensures w in t.subscriptions
    ensures var n, row := Prepare(t, w, expected, apply, env).0, t.subscriptions[w];
            && w in n.subscriptions
            && n == t.(subscriptions := t.subscriptions[w := n.subscriptions[w]],
                       audit := t.audit + [PreparedEntry(w, row)])
            && n.subscriptions[w]
               == row.(status := Canceled, subscriptionReference := None, customerReference := None,
                       lastProviderEvent := PreparedForLiveCutover, version := row.version + 1, updatedAt := env.now)
  {
    var row, details := t.subscriptions[w], PreparedEntry(w, t.subscriptions[w]).details;
    Audit.FilterKeepsStatusDetails(details);
    assert Audit.StatusDetails(row.status, Canceled)
           + map[ReasonKey := ReasonDetail(PreparedForPilot(row.subscriptionReference, row.customerReference))]
        == details == Audit.SafeDetails(details);
  }

  function PreparedEntry(w: WorkspaceId, row: Subscription): AuditEvent {
    AuditEvent(w, SubscriptionChanged, Some(Dodo),
               map[PreviousStatusKey := StatusDetail(row.status), NewStatusKey := StatusDetail(Canceled),
                   ReasonKey := ReasonDetail(PreparedForPilot(row.subscriptionReference, row.customerReference))])
  }
}
