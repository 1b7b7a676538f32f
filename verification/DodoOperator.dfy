/** The two operator commands on Dodo rows: reconciling a workspace with a subscription the
    provider reports, and preparing a pilot workspace for the live cutover. */
module DodoOperator {
  import opened BillingTypes
  import Audit
  import Entitlements

  /** The fields read from a provider's answer; absent strings are empty, an addon may have no id. */
  datatype DodoSubscription = DodoSubscription(
    subscriptionId: string,
    customerId: string,
    status: string,
    productId: string,
    metadataWorkspace: Option<WorkspaceId>,
    addons: seq<(Option<string>, int)>,
    previousBillingDate: Option<Timestamp>,
    nextBillingDate: Option<Timestamp>,
    cancelAtNextBillingDate: bool)

  /** The answer to one GET: a 404, another error, or a body, which may be empty. */
  datatype Fetched = NotFound404 | FetchError | Body(data: Option<DodoSubscription>)

  type ProviderOracle = string -> Fetched

  datatype Refusal =
    | WorkspaceNotFound | HasOtherProvider | DodoNotConfigured | EnvironmentNotConfigured
    | LiveWithoutFlag | LiveFlagOnTest | ExistingStillLive | ExistingUnverifiable | ExistingUnrecognized
    | ApiError | SubscriptionNotFound | TargetNotActive | WorkspaceMismatch | UnknownProduct
    | CustomerMismatch | AttachedElsewhere

  datatype ReconcileOutcome =
    | AlreadyReconciled | DryRun(wouldReplace: bool) | Created | Replaced | Refused(reason: Refusal)

  datatype Snapshot = Snapshot(
    subscriptionReference: Option<string>,
    customerReference: Option<string>,
    planId: PaidPlan,
    billableSeats: int,
    status: string,
    periodStart: Option<Timestamp>,
    periodEnd: Option<Timestamp>,
    cancelAtPeriodEnd: bool)

  function NonEmpty(s: string): Option<string> {
    if s == "" then None else Some(s)
  }

  /** The quantity of the last addon with the seat addon's id; while that is not configured, of
      the last addon without an id. */
  function AddonQuantity(addons: seq<(Option<string>, int)>, seatAddon: Option<string>): int {
    if addons == [] then 0
    else
      var last := addons[|addons| - 1];
      if last.0 == seatAddon then last.1 else AddonQuantity(addons[..|addons| - 1], seatAddon)
  }

  function SnapshotOf(d: DodoSubscription, s: Settings): Snapshot {
    var plan: PaidPlan := if Some(d.productId) == s.proProductId then Pro else Team;
    Snapshot(NonEmpty(d.subscriptionId), NonEmpty(d.customerId), plan,
             if plan == Team then TEAM_INCLUDED_SEATS + AddonQuantity(d.addons, s.teamSeatAddonId) else 0,
             d.status, d.previousBillingDate, d.nextBillingDate, d.cancelAtNextBillingDate)
  }

  predicate RawLive(status: string) {
    status == "active" || status == "on_hold" || status == "pending"
  }

  predicate RawReplaceable(status: string) {
    status == "cancelled" || status == "canceled" || status == "failed" || status == "expired"
  }

  function CheckEnvironment(s: Settings, live: bool): Option<Refusal> {
    if !s.dodoConfigured then Some(DodoNotConfigured)
    else match s.dodoEnvironment
         case NotConfigured => Some(EnvironmentNotConfigured)
         case LiveMode => if live then None else Some(LiveWithoutFlag)
         case TestMode => if live then Some(LiveFlagOnTest) else None
  }

  /** May the existing row be replaced, judged by what the provider says of it now? */
  function CheckExisting(row: Subscription, fetch: ProviderOracle): Option<Refusal> {
    if !Truthy(row.subscriptionReference) then
      if row.status == Canceled || row.status == Expired || row.status == Incomplete then None
      else Some(ExistingStillLive)
    else match fetch(row.subscriptionReference.value)
         case NotFound404 => None
         case FetchError => Some(ExistingUnverifiable)
         case Body(None) => None
         case Body(Some(d)) =>
           if RawLive(d.status) then Some(ExistingStillLive)
           else if RawReplaceable(d.status) then None
           else Some(ExistingUnrecognized)
  }

  predicate AttachedToAnother(subs: map<WorkspaceId, Subscription>, w: WorkspaceId, reference: string) {
    exists v :: v in subs && v != w && subs[v].subscriptionReference == Some(reference)
  }

  /** The verified subscription a reconciliation may write, or the reason to refuse. */
  function Verify(t: Tables, w: WorkspaceId, id: string, fetch: ProviderOracle, live: bool, s: Settings)
    : Result<Snapshot, Refusal>
  {
    if w in t.subscriptions && t.subscriptions[w].provider != Dodo then Failure(HasOtherProvider)
    else if CheckEnvironment(s, live).Some? then Failure(CheckEnvironment(s, live).value)
    else if w in t.subscriptions && CheckExisting(t.subscriptions[w], fetch).Some?
    then Failure(CheckExisting(t.subscriptions[w], fetch).value)
    else match fetch(id)
         case NotFound404 => Failure(ApiError)
         case FetchError => Failure(ApiError)
         case Body(None) => Failure(SubscriptionNotFound)
         case Body(Some(d)) =>
           if d.status != "active" then Failure(TargetNotActive)
           else if d.metadataWorkspace.Some? && d.metadataWorkspace.value != w then Failure(WorkspaceMismatch)
           else if Some(d.productId) != s.proProductId && Some(d.productId) != s.teamProductId
           then Failure(UnknownProduct)
           else if w in t.subscriptions && Truthy(t.subscriptions[w].customerReference) && d.customerId != ""
                   && Some(d.customerId) != t.subscriptions[w].customerReference
           then Failure(CustomerMismatch)
           else if w in t.subscriptions && AttachedToAnother(t.subscriptions, w, id) then Failure(AttachedElsewhere)
           else Success(SnapshotOf(d, s))
  }

  function AdditionalSeats(s: Snapshot): int {
    if s.planId == Team then Max(0, s.billableSeats - TEAM_INCLUDED_SEATS) else 0
  }

  function CreatedFrom(s: Snapshot, env: Env): Subscription {
    Subscription(Dodo, s.customerReference, s.subscriptionReference, s.planId, Month,
                 Entitlements.NormalizeDodoStatus(s.status), s.billableSeats, AdditionalSeats(s),
                 s.periodStart, s.periodEnd, s.cancelAtPeriodEnd, None, ReconciledFromDodo, 0, env.now)
  }

  function ReplacedBy(row: Subscription, s: Snapshot, env: Env): Subscription {
    CreatedFrom(s, env).(
      provider := row.provider,
      customerReference := if s.customerReference.Some? then s.customerReference else row.customerReference,
      gracePeriodEnd := row.gracePeriodEnd,
      version := row.version + 1)
  }

  function ReconciliationEntry(w: WorkspaceId, before: Option<Subscription>, s: Snapshot): AuditEvent {
    Audit.Entry(w, ProviderReconciliation, Dodo,
                match before
                case None => map[PlanIdKey := PlanDetail(s.planId), BillingIntervalKey := IntervalDetail(Month),
                                 BillableSeatsKey := NumberDetail(s.billableSeats)]
                case Some(row) => map[PreviousPlanIdKey := PlanDetail(row.planId), NewPlanIdKey := PlanDetail(s.planId),
                                      BillingIntervalKey := IntervalDetail(Month),
                                      BillableSeatsKey := NumberDetail(s.billableSeats),
                                      ReasonKey := ReasonDetail(ReplacedObsolete(row.subscriptionReference))])
  }

  /** `reconcile_workspace_from_dodo_subscription`. */
  function Reconcile(t: Tables, w: WorkspaceId, id: string, fetch: ProviderOracle, live: bool, apply: bool, env: Env)
    : (Tables, ReconcileOutcome)
  {
    if w !in t.workspaces then (t, Refused(WorkspaceNotFound))
    else if w in t.subscriptions && t.subscriptions[w].subscriptionReference == Some(id) then (t, AlreadyReconciled)
    else match Verify(t, w, id, fetch, live, env.settings)
         case Failure(reason) => (t, Refused(reason))
         case Success(s) =>
           var before := if w in t.subscriptions then Some(t.subscriptions[w]) else None;
           if !apply then (t, DryRun(before.Some?))
           else
             var row := if before.Some? then ReplacedBy(before.value, s, env) else CreatedFrom(s, env);
             (t.(subscriptions := t.subscriptions[w := row], audit := t.audit + [ReconciliationEntry(w, before, s)]),
              if before.Some? then Replaced else Created)
  }

  /** Before it runs: the reconciliation will write. */
  predicate GoesThrough(t: Tables, w: WorkspaceId, id: string, fetch: ProviderOracle, live: bool, apply: bool,
                        env: Env) {
    && w in t.workspaces && apply
    && !(w in t.subscriptions && t.subscriptions[w].subscriptionReference == Some(id))
    && Verify(t, w, id, fetch, live, env.settings).Success?
  }

  // ----- Preparing a pilot workspace for the live cutover -----

  datatype PrepareOutcome =
    | Prepared | AlreadyPrepared | WouldPrepare
    | UnknownWorkspace | NoSubscription | NotDodo | ReferenceMismatch

  function PreparedRow(row: Subscription, env: Env): Subscription {
    row.(status := Canceled, subscriptionReference := None, customerReference := None,
         lastProviderEvent := PreparedForLiveCutover, version := row.version + 1, updatedAt := env.now)
  }

  function PreparationEntry(w: WorkspaceId, row: Subscription): AuditEvent {
    Audit.Entry(w, SubscriptionChanged, Dodo,
                Audit.StatusDetails(row.status, Canceled)
                + map[ReasonKey := ReasonDetail(PreparedForPilot(row.subscriptionReference, row.customerReference))])
  }

  /** `prepare_dodo_workspace_for_live_pilot`. */
  function Prepare(t: Tables, w: WorkspaceId, expected: string, apply: bool, env: Env): (Tables, PrepareOutcome) {
    if w !in t.workspaces then (t, UnknownWorkspace)
    else if w !in t.subscriptions then (t, NoSubscription)
    else
      var row := t.subscriptions[w];
      if row.provider != Dodo then (t, NotDodo)
      else if row.lastProviderEvent == PreparedForLiveCutover then (t, AlreadyPrepared)
      else if row.subscriptionReference != Some(expected) then (t, ReferenceMismatch)
      else if !apply then (t, WouldPrepare)
      else (t.(subscriptions := t.subscriptions[w := PreparedRow(row, env)],
               audit := t.audit + [PreparationEntry(w, row)]),
            Prepared)
  }
}
