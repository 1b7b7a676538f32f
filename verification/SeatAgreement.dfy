/** Seats and prices of the rows that deliveries produce. */
module SeatAgreement {
  import opened BillingTypes
  import opened DodoEvents
  import opened DodoProcessor
  import opened DeliveryShape
  import opened Runs
  import opened Lookup
  import opened DodoOperator
  import OperatorSafety
  import Pricing

  /** Every Dodo row is on a paid plan and its seats agree with it. */
  ghost predicate DodoSeatsAgree(subs: map<WorkspaceId, Subscription>) {
    forall w :: w in subs && subs[w].provider == Dodo ==> subs[w].planId != Free && Pricing.SeatsAgree(subs[w])
  }

  lemma UpdateKeepsSeats(row: Subscription, e: DodoEvent, env: Env)
    requires row.planId != Free && Pricing.SeatsAgree(row)
    ensures UpdatedRow(row, e, env).planId != Free && Pricing.SeatsAgree(UpdatedRow(row, e, env))
    ensures UpdatedRow(row, e, env).billableSeats != row.billableSeats ==> ChangesPlan(row, e, env.settings)
  {
  }

  lemma DeliveryKeepsSeats(t: Tables, e: DodoEvent, env: Env, found: Option<WorkspaceId>, raised: bool)
    requires DodoSeatsAgree(t.subscriptions)
    requires IsFirstMatch(t.subscriptions, Dodo, e.subscriptionReference, e.customerReference, found)
    ensures DodoSeatsAgree(SubscriptionsAfter(t, e, env, found, raised))
  {
    if found.Some? {
      UpdateKeepsSeats(t.subscriptions[found.value], e, env);
    }
  }

  /** If the step is a reconciliation, the provider does not report a negative number of
      seats bought in addition. */
  predicate ReportsNoNegativeSeats(s: Step) {
    s.DodoReconcile? && s.fetch(s.subscriptionId).Body? && s.fetch(s.subscriptionId).data.Some?
    ==> AddonQuantity(s.fetch(s.subscriptionId).data.value.addons, s.env.settings.teamSeatAddonId) >= 0
  }

  lemma ReconcileKeepsSeats(t: Tables, s: Step)
    requires s.DodoReconcile? && ReportsNoNegativeSeats(s) && DodoSeatsAgree(t.subscriptions)
    ensures DodoSeatsAgree(Next(t, s).subscriptions)
  {
    var (n, outcome) := Reconcile(t, s.workspace, s.subscriptionId, s.fetch, s.live, s.apply, s.env);
    OperatorSafety.ReconcileFailsClosed(t, s.workspace, s.subscriptionId, s.fetch, s.live, s.apply, s.env);
    if OperatorSafety.Wrote(outcome) {
      OperatorSafety.ReconcileGrantsVerifiedPlan(t, s.workspace, s.subscriptionId, s.fetch, s.live, s.env);
      OperatorSafety.ReconciledSeatsAgreeExactly(t, s.workspace, s.subscriptionId, s.fetch, s.live, s.env);
      assert n.subscriptions == t.subscriptions[s.workspace := n.subscriptions[s.workspace]];
    }
  }

  lemma StepKeepsSeats(t: Tables, s: Step)
    requires Possible(t, s) && ReportsNoNegativeSeats(s) && DodoSeatsAgree(t.subscriptions)
    ensures DodoSeatsAgree(Next(t, s).subscriptions)
  {
    if s.DodoDelivery? {
      DeliverySubscriptions(t, s.event, s.env, s.found, s.raised);
      DeliveryKeepsSeats(t, s.event, s.env, s.found, s.raised);
    } else if s.DodoReconcile? {
      ReconcileKeepsSeats(t, s);
    }
  }

  /** After any run whose reconciliations report no negative seats, every Dodo row is priced
      consistently: the stored seats, the desired state and seat reconciliation agree on the quantity, and a
      Team row costs 3000 cents plus 500 for each additional seat. */
  lemma {:induction false} StoredSeatsPriceConsistently(t: Tables, steps: seq<Step>, w: WorkspaceId)
    requires ValidRun(t, steps) && DodoSeatsAgree(t.subscriptions)
    requires forall i :: 0 <= i < |steps| ==> ReportsNoNegativeSeats(steps[i])
    requires w in Run(t, steps).subscriptions && Run(t, steps).subscriptions[w].provider == Dodo
    ensures var row := Run(t, steps).subscriptions[w];
            var price := Pricing.CalculatePriceForPlan(row.planId, row.billableSeats);
            && price.Success?
            && price.value.totalAmountCents == Pricing.SumOfComponents(price.value.components)
            && Pricing.CalculateDesiredState(row.planId, row.billableSeats).Success?
            && Pricing.CalculateDesiredState(row.planId, row.billableSeats).value.calculatedTotalCents
               == price.value.totalAmountCents
            && (row.planId == Team ==>
                  && price.value.totalAmountCents == 3000 + 500 * row.additionalSeatQuantity
                  && !Pricing.PlanSeatReconciliation(row.billableSeats, row.additionalSeatQuantity).needsUpdate)
            && (row.planId == Pro ==> price.value.totalAmountCents == 1000 && row.additionalSeatQuantity == 0)
    decreases |steps|
  {
    if steps == [] {
      Pricing.AgreeingSeatsPriceConsistently(t.subscriptions[w]);
    } else {
      StepKeepsSeats(t, steps[0]);
      StoredSeatsPriceConsistently(Next(t, steps[0]), steps[1..], w);
    }
  }
}
