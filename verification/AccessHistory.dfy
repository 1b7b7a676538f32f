/** Where paid access comes from and what takes it away, over every run. */
module AccessHistory {
  import opened BillingTypes
  import opened DodoEvents
  import opened DodoProcessor
  import opened DeliveryShape
  import opened PaddleProcessor
  import opened Runs
  import Entitlements
  import RowHistory

  predicate HasAccess(t: Tables, w: WorkspaceId) {
    w in t.subscriptions && t.subscriptions[w].status in {Trialing, Active, PastDue, GracePeriod}
  }

  /** It is what the decision for the workspace says. */
  lemma AccessIsDecided(row: Subscription)
    ensures Entitlements.WorkspaceDecision(row).hasPaidAccess
            <==> row.status in {Trialing, Active, PastDue, GracePeriod}
    ensures Entitlements.WorkspaceDecision(row)
            == Entitlements.DecideEntitlements(row.planId, row.status, row.gracePeriodEnd, Some(row.provider))
  {
    Entitlements.DecisionExactly(row.planId, row.status, row.gracePeriodEnd, Some(row.provider));
  }

  const DODO_PAYING: set<string> := {"active", "trialing", "on_hold", "past_due", "grace_period"}
  const PADDLE_PAYING: set<string> := {"active", "trialing", "past_due"}

  /** A delivery that reaches the workspace's row: it does not raise, and its lookup found the
      row, or found none while its metadata names the workspace. */
  predicate Reaches(found: Option<WorkspaceId>, hint: Option<WorkspaceId>, raised: bool, w: WorkspaceId) {
    !raised && (if found.Some? then found.value == w else hint == Some(w))
  }

  /** The steps that can give a workspace paid access it does not have: a lifecycle delivery
      whose payload has a paying status, a payment, a failed payment, an applied
      reconciliation. */
  predicate CanGrant(s: Step, w: WorkspaceId) {
    match s
    case DodoDelivery(e, _, found, raised) =>
      && Reaches(found, e.workspaceHint, raised, w)
      && ((&& e.eventType in {SubscriptionCreated, SubscriptionUpdated, EventType.SubscriptionCanceled,
                              SubscriptionPaused}
           && e.subscriptionStatus.Some? && e.subscriptionStatus.value in DODO_PAYING)
          || e.eventType in {TransactionCompleted, TransactionFailed, PaymentPastDue})
    case PaddleDelivery(e, _, found, raised) =>
      && Reaches(found, None, raised, w)
      && ((&& e.eventType in {SubscriptionCreated, SubscriptionUpdated, SubscriptionResumed}
           && e.subscriptionStatus.Some? && e.subscriptionStatus.value in PADDLE_PAYING)
          || e.eventType in {TransactionCompleted, TransactionFailed, PaymentPastDue})
    case DodoReconcile(v, _, _, _, apply, _) => v == w && apply
    case PaddleReconcile(v, snapshot, _, _) => v == w && snapshot.Some? && snapshot.value.status in PADDLE_PAYING
    case _ => false
  }

  lemma DodoGrants(row: Subscription, e: DodoEvent, env: Env)
    requires row.status !in {Trialing, Active, PastDue, GracePeriod}
    requires UpdatedRow(row, e, env).status in {Trialing, Active, PastDue, GracePeriod}
    ensures (&& e.eventType in {SubscriptionCreated, SubscriptionUpdated}
             && e.subscriptionStatus.Some? && e.subscriptionStatus.value in DODO_PAYING)
            || e.eventType in {TransactionCompleted, TransactionFailed, PaymentPastDue}
  {
    if e.subscriptionStatus.Some? {
      Entitlements.DodoSpellingsExactly(e.subscriptionStatus.value, row.status);
    }
  }

  lemma PaddleGrants(row: Subscription, e: PaddleEvent, env: Env)
    requires row.status !in {Trialing, Active, PastDue, GracePeriod}
    requires UpdatedPaddleRow(row, e, env).status in {Trialing, Active, PastDue, GracePeriod}
    ensures (&& e.eventType in {SubscriptionCreated, SubscriptionUpdated, SubscriptionResumed}
             && e.subscriptionStatus.Some? && e.subscriptionStatus.value in PADDLE_PAYING)
            || e.eventType in {TransactionCompleted, TransactionFailed, PaymentPastDue}
  {
    if e.subscriptionStatus.Some? {
      Entitlements.PaddleSpellingsExactly(e.subscriptionStatus.value, row.status);
    }
  }

  lemma DodoDeliveryGrants(t: Tables, e: DodoEvent, env: Env, found: Option<WorkspaceId>, raised: bool, w: WorkspaceId)
    requires Possible(t, DodoDelivery(e, env, found, raised))
    requires !HasAccess(t, w) && HasAccess(After(t, e, env, found, raised), w)
    ensures CanGrant(DodoDelivery(e, env, found, raised), w)
  {
    DeliverySubscriptions(t, e, env, found, raised);
    if found.Some? {
      DodoGrants(t.subscriptions[w], e, env);
    } else {
      Entitlements.DodoSpellingsExactly(e.subscriptionStatus.value, Active);
    }
  }

  lemma PaddleStepGrants(t: Tables, s: Step, w: WorkspaceId)
    requires s.PaddleDelivery? && Possible(t, s) && !HasAccess(t, w) && HasAccess(Next(t, s), w)
    ensures CanGrant(s, w)
  {
    StepFrame(t, s);
    assert RowAt(Next(t, s), w) != RowAt(t, w);
    PaddleGrants(t.subscriptions[w], s.paddle, s.env);
  }

  /** A step that gives a workspace paid access can. */
  lemma StepGrants(t: Tables, s: Step, w: WorkspaceId)
    requires Possible(t, s) && !HasAccess(t, w) && HasAccess(Next(t, s), w)
    ensures CanGrant(s, w)
  {
    match s
    case DodoDelivery(e, env, found, raised) => DodoDeliveryGrants(t, e, env, found, raised, w);
    case PaddleDelivery(_, _, _, _) => PaddleStepGrants(t, s, w);
    case PaddleReconcile(_, snapshot, _, _) =>
      if snapshot.Some? {
        Entitlements.PaddleSpellingsExactly(snapshot.value.status, Active);
      }
    case _ =>
  }

  /** Over every run: a workspace that comes to have paid access got it from a step that can
      give it, a delivery with a paying status or about a payment, or a reconciliation. */
  lemma {:induction false} AccessIsGranted(t: Tables, steps: seq<Step>, w: WorkspaceId) returns (i: nat)
    requires ValidRun(t, steps) && !HasAccess(t, w) && HasAccess(Run(t, steps), w)
    ensures i < |steps| && CanGrant(steps[i], w)
    ensures !HasAccess(RowHistory.StateAt(t, steps, i), w) && HasAccess(RowHistory.StateAt(t, steps, i + 1), w)
    decreases |steps|
  {
    if HasAccess(Next(t, steps[0]), w) {
      StepGrants(t, steps[0], w);
      i := 0;
      RowHistory.StateAfterOne(t, steps, 0);
      assert steps[..0] == [];
    } else {
      var k := AccessIsGranted(Next(t, steps[0]), steps[1..], w);
      RowHistory.StateAfterFirst(t, steps, k);
      RowHistory.StateAfterFirst(t, steps, k + 1);
      i := k + 1;
    }
  }

  /** So an ending lasts: a workspace whose row is paused, canceled, expired or incomplete stays
      without paid access, on the Free limits, through any run of other steps. */
  lemma EndingsLast(t: Tables, steps: seq<Step>, w: WorkspaceId)
    requires ValidRun(t, steps) && w in t.subscriptions
    requires t.subscriptions[w].status in {Paused, Canceled, Expired, Incomplete}
    requires forall i :: 0 <= i < |steps| ==> !CanGrant(steps[i], w)
    ensures w in Run(t, steps).subscriptions
    ensures var d := Entitlements.WorkspaceDecision(Run(t, steps).subscriptions[w]);
            !d.hasPaidAccess && d.planId == Free && d.limits == Entitlements.Entitlement(3, 1, 60, 30, false)
  {
    RowHistory.RowsPersist(t, steps, w);
    AccessIsDecided(Run(t, steps).subscriptions[w]);
    if HasAccess(Run(t, steps), w) {
      var i := AccessIsGranted(t, steps, w);
      assert false;
    }
  }
}
