/** The operator commands fail closed, are idempotent, and leave rows in the state they promise. */
module OperatorSafety {
  import opened BillingTypes
  import opened DodoOperator
  import opened Runs
  import Entitlements
  import Pricing
  import RowHistory

  // ----- Reconciliation -----

  predicate Wrote(o: ReconcileOutcome) {
    o.Created? || o.Replaced?
  }

  /** A reconciliation writes only when asked to apply; every refusal, dry run and repeat
      leaves the database as it was. */
  lemma ReconcileFailsClosed(t: Tables, w: WorkspaceId, id: string, fetch: ProviderOracle, live: bool, apply: bool,
                             env: Env)
    ensures var (n, outcome) := Reconcile(t, w, id, fetch, live, apply, env);
            && (!Wrote(outcome) ==> n == t)
            && (Wrote(outcome)
                ==> apply && w in t.workspaces && n.subscriptions != t.subscriptions && |n.audit| == |t.audit| + 1)
            && (outcome.Created? ==> w !in t.subscriptions)
            && (outcome.Replaced? ==> w in t.subscriptions)
            && (outcome.DryRun? ==> !apply && outcome.wouldReplace == (w in t.subscriptions))
  {
    var (n, outcome) := Reconcile(t, w, id, fetch, live, apply, env);
    if outcome.Created? {
      assert w in n.subscriptions;
    } else if outcome.Replaced? {
      assert n.subscriptions[w].version == t.subscriptions[w].version + 1;
    }
  }

  /** What the provider answers for a row with a reference: not found, empty, or a status in
      which the subscription is over. A row without one is judged by its own status. */
  predicate ConfirmedObsolete(row: Subscription, fetch: ProviderOracle) {
    if Truthy(row.subscriptionReference) then
      match fetch(row.subscriptionReference.value)
      case NotFound404 => true
      case FetchError => false
      case Body(d) => d.None? || (RawReplaceable(d.value.status) && !RawLive(d.value.status))
    else !Entitlements.GrantsPaidAccess(row.status) && row.status != Paused
  }

  /** It never replaces a row of another provider, nor one the provider may still consider
      live, nor with a subscription of another customer, another workspace, or one that is
      already attached elsewhere; an unverifiable answer refuses. */
  lemma ReconcileNeverReplacesLive(t: Tables, w: WorkspaceId, id: string, fetch: ProviderOracle, live: bool, env: Env)
    requires Reconcile(t, w, id, fetch, live, true, env).1.Replaced?
    ensures t.subscriptions[w].provider == Dodo
    ensures ConfirmedObsolete(t.subscriptions[w], fetch)
    ensures fetch(id).Body? && fetch(id).data.Some?
    ensures var d := fetch(id).data.value;
            && d.status == "active"
            && (d.metadataWorkspace.Some? ==> d.metadataWorkspace.value == w)
            && (Truthy(t.subscriptions[w].customerReference) && d.customerId != ""
                ==> t.subscriptions[w].customerReference == Some(d.customerId))
    ensures !AttachedToAnother(t.subscriptions, w, id)
  {
  }

  /** A write gives the workspace paid access on the plan of the product the provider
      reports, with the seats that plan and its addons call for. */
  lemma ReconcileGrantsVerifiedPlan(t: Tables, w: WorkspaceId, id: string, fetch: ProviderOracle, live: bool, env: Env)
    requires Wrote(Reconcile(t, w, id, fetch, live, true, env).1)
    ensures fetch(id).Body? && fetch(id).data.Some?
    ensures var row, d := Reconcile(t, w, id, fetch, live, true, env).0.subscriptions[w], fetch(id).data.value;
            && row.provider == Dodo && row.status == Active
            && Entitlements.WorkspaceDecision(row).hasPaidAccess
            && Entitlements.WorkspaceDecision(row).planId == row.planId
            && (row.planId == Pro || row.planId == Team)
            && Some(d.productId)
               == (if row.planId == Pro then env.settings.proProductId else env.settings.teamProductId)
            && row.subscriptionReference == NonEmpty(d.subscriptionId)
            && (row.planId == Pro ==> row.billableSeats == 0)
            && (row.planId == Team ==> row.billableSeats == 20 + AddonQuantity(d.addons, env.settings.teamSeatAddonId))
  {
    var d := fetch(id).data.value;
    assert d.status == "active";
  }

  /** The seats it writes agree with the plan exactly when the reported seat addon is not
      a negative quantity. */
  lemma ReconciledSeatsAgreeExactly(t: Tables, w: WorkspaceId, id: string, fetch: ProviderOracle, live: bool, env: Env)
    requires Wrote(Reconcile(t, w, id, fetch, live, true, env).1)
    ensures fetch(id).Body? && fetch(id).data.Some?
    ensures var row, d := Reconcile(t, w, id, fetch, live, true, env).0.subscriptions[w], fetch(id).data.value;
            Pricing.SeatsAgree(row)
            <==> row.planId == Pro || AddonQuantity(d.addons, env.settings.teamSeatAddonId) >= 0
  {
    ReconcileGrantsVerifiedPlan(t, w, id, fetch, live, env);
  }

  /** Repeating the command after it wrote reports the subscription as already reconciled,
      and then changes nothing, exactly when the provider echoed the id it was asked for. */
  lemma ReconcileIsIdempotentExactly(t: Tables, w: WorkspaceId, id: string, fetch: ProviderOracle,
                                     again: ProviderOracle, live: bool, env: Env, later: Env)
    requires Wrote(Reconcile(t, w, id, fetch, live, true, env).1)
    ensures fetch(id).Body? && fetch(id).data.Some?
    ensures var n := Reconcile(t, w, id, fetch, live, true, env).0;
            var repeat := Reconcile(n, w, id, again, live, true, later);
            && (repeat.1 == AlreadyReconciled <==> id != "" && fetch(id).data.value.subscriptionId == id)
            && (repeat.1 == AlreadyReconciled ==> repeat.0 == n)
  {
    ReconcileGrantsVerifiedPlan(t, w, id, fetch, live, env);
  }

  /** No provider answer and no settings make a repeat write exactly when the provider echoed
      the id, reported none at all, or the id is attached to another workspace as well. */
  lemma RepeatNeverWritesExactly(t: Tables, w: WorkspaceId, id: string, fetch: ProviderOracle, live: bool, env: Env)
    requires Wrote(Reconcile(t, w, id, fetch, live, true, env).1)
    ensures fetch(id).Body? && fetch(id).data.Some?
    ensures var n, reported := Reconcile(t, w, id, fetch, live, true, env).0, fetch(id).data.value.subscriptionId;
            (forall again, later :: Reconcile(n, w, id, again, live, true, later).0 == n)
            <==> reported == id || reported == "" || AttachedToAnother(t.subscriptions, w, id)
  {
    var n, reported := Reconcile(t, w, id, fetch, live, true, env).0, fetch(id).data.value.subscriptionId;
    ReconcileGrantsVerifiedPlan(t, w, id, fetch, live, env);
    assert w in n.subscriptions && n.workspaces == t.workspaces && forall v :: v != w ==> RowAt(n, v) == RowAt(t, v);
    assert AttachedToAnother(n.subscriptions, w, id) <==> AttachedToAnother(t.subscriptions, w, id) by {
      OthersStayAttached(t, n, w, id);
      OthersStayAttached(n, t, w, id);
    }
    if reported == id || reported == "" || AttachedToAnother(t.subscriptions, w, id) {
      forall again, later ensures Reconcile(n, w, id, again, live, true, later).0 == n {
        RepeatIsRefused(n, w, id, again, live, later);
      }
    } else {
      var again, later := RepeatCanWrite(n, w, id, live);
    }
  }

  lemma OthersStayAttached(t: Tables, n: Tables, w: WorkspaceId, id: string)
    requires forall v :: v != w ==> RowAt(n, v) == RowAt(t, v)
    ensures AttachedToAnother(t.subscriptions, w, id) ==> AttachedToAnother(n.subscriptions, w, id)
  {
    if v :| v in t.subscriptions && v != w && t.subscriptions[v].subscriptionReference == Some(id) {
      assert RowAt(n, v) == RowAt(t, v);
    }
  }

  lemma RepeatIsRefused(n: Tables, w: WorkspaceId, id: string, again: ProviderOracle, live: bool, later: Env)
    requires w in n.subscriptions && n.subscriptions[w].status == Active
    requires n.subscriptions[w].subscriptionReference == Some(id) || !Truthy(n.subscriptions[w].subscriptionReference)
             || AttachedToAnother(n.subscriptions, w, id)
    ensures Reconcile(n, w, id, again, live, true, later).0 == n
  {
  }

  /** The provider no longer knows the stored subscription, and reports the requested one. */
  lemma RepeatCanWrite(n: Tables, w: WorkspaceId, id: string, live: bool) returns (again: ProviderOracle, later: Env)
    requires w in n.workspaces && w in n.subscriptions && n.subscriptions[w].provider == Dodo
    requires Truthy(n.subscriptions[w].subscriptionReference) && n.subscriptions[w].subscriptionReference != Some(id)
    requires !AttachedToAnother(n.subscriptions, w, id)
    ensures Reconcile(n, w, id, again, live, true, later).0 != n
  {
    var settings := Settings("dodo", if live then LiveMode else TestMode, true, Some("p"), Some("t"), None, None, 7);
    var d := DodoSubscription(id, "", "active", "p", None, [], None, None, false);
    again := (s: string) => if s == id then Body(Some(d)) else NotFound404;
    later := Env(0, settings);
    assert d.status == "active";
    assert CheckExisting(n.subscriptions[w], again) == None;
    assert Verify(n, w, id, again, live, settings).Success?;
    assert Reconcile(n, w, id, again, live, true, later).0.subscriptions[w].version == n.subscriptions[w].version + 1;
  }

  // ----- Pilot preparation -----

  /** Preparing writes only when asked to apply and only a Dodo row whose stored reference is
      the expected one; a second call never writes again. */
  lemma PrepareFailsClosedAndIsIdempotent(t: Tables, w: WorkspaceId, expected: string, other: string, apply: bool,
                                          applyAgain: bool, env: Env, later: Env)
    ensures var (n, outcome) := Prepare(t, w, expected, apply, env);
            && (outcome != Prepared ==> n == t)
            && (outcome == Prepared <==>
                  apply && w in t.workspaces && w in t.subscriptions && t.subscriptions[w].provider == Dodo
                  && t.subscriptions[w].lastProviderEvent != PreparedForLiveCutover
                  && t.subscriptions[w].subscriptionReference == Some(expected))
            && (outcome == Prepared ==> Prepare(n, w, other, applyAgain, later) == (n, AlreadyPrepared))
  {
  }

  /** The state preparation leaves a row in. */
  predicate IsInert(row: Subscription) {
    && row.provider == Dodo && row.status == Canceled
    && row.subscriptionReference == None && row.customerReference == None
    && row.lastProviderEvent == PreparedForLiveCutover
  }

  lemma PreparedRowIsInert(t: Tables, w: WorkspaceId, expected: string, env: Env)
    requires Prepare(t, w, expected, true, env).1 == Prepared
    ensures w in Prepare(t, w, expected, true, env).0.subscriptions
    ensures IsInert(Prepare(t, w, expected, true, env).0.subscriptions[w])
  {
  }

  lemma InertRowIsNotFound(t: Tables, s: Step, w: WorkspaceId)
    requires Possible(t, s) && w in t.subscriptions && IsInert(t.subscriptions[w])
    requires !RowHistory.ReconcilesWorkspace(s, w)
    ensures RowAt(Next(t, s), w) == RowAt(t, w)
  {
    StepFrame(t, s);
  }

  lemma {:induction false} InertRowsStay(t: Tables, steps: seq<Step>, w: WorkspaceId)
    requires ValidRun(t, steps) && w in t.subscriptions && IsInert(t.subscriptions[w])
    requires forall i :: 0 <= i < |steps| ==> !RowHistory.ReconcilesWorkspace(steps[i], w)
    ensures w in Run(t, steps).subscriptions && Run(t, steps).subscriptions[w] == t.subscriptions[w]
    decreases |steps|
  {
    if steps != [] {
      InertRowIsNotFound(t, steps[0], w);
      assert RowAt(Next(t, steps[0]), w).Some?;
      InertRowsStay(Next(t, steps[0]), steps[1..], w);
    }
  }

  /** After preparation nothing but an applied reconciliation of the workspace itself changes
      its row: no delivery finds it, no repeat writes it, and its workspace stays on Free. */
  lemma PreparedRowsAreInert(t: Tables, w: WorkspaceId, expected: string, env: Env, steps: seq<Step>)
    requires Prepare(t, w, expected, true, env).1 == Prepared
    requires ValidRun(Prepare(t, w, expected, true, env).0, steps)
    requires forall i :: 0 <= i < |steps| ==> !RowHistory.ReconcilesWorkspace(steps[i], w)
    ensures var prepared := Prepare(t, w, expected, true, env).0;
            var last := Run(prepared, steps);
            && w in prepared.subscriptions && w in last.subscriptions
            && last.subscriptions[w] == prepared.subscriptions[w]
            && Entitlements.WorkspaceDecision(last.subscriptions[w]).planId == Free
            && Entitlements.WorkspaceDecision(last.subscriptions[w]).limits == Entitlements.PlanEntitlement(Free)
  {
    PreparedRowIsInert(t, w, expected, env);
    InertRowsStay(Prepare(t, w, expected, true, env).0, steps, w);
  }
}
