/** Plan pricing, the desired commercial state, and seat reconciliation. */
module Pricing {
  import opened BillingTypes

  const TEAM_BASE_MONTHLY_CENTS := 3000
  const TEAM_ADDITIONAL_SEAT_MONTHLY_CENTS := 500
  const PRO_MONTHLY_CENTS := 1000

  datatype Component = TeamBase | TeamAdditionalSeat | ProMonthly

  datatype PriceComponent = PriceComponent(component: Component, unitAmountCents: int, quantity: int) {
    function SubtotalCents(): int {
      unitAmountCents * quantity
    }
  }

  datatype PricingBreakdown = PricingBreakdown(
    billableMembers: int,
    includedMembers: int,
    additionalMembers: int,
    baseAmountCents: int,
    additionalSeatAmountCents: int,
    totalAmountCents: int,
    components: seq<PriceComponent>)

  datatype PricingError = NegativeMemberCount | UnpricedPlan

  function CalculateTeamMonthlyPrice(members: int): Result<PricingBreakdown, PricingError> {
    if members < 0 then Failure(NegativeMemberCount) else
      var additional := Max(0, members - TEAM_INCLUDED_SEATS);
      var seatAmount := additional * TEAM_ADDITIONAL_SEAT_MONTHLY_CENTS;
      Success(PricingBreakdown(
                members, TEAM_INCLUDED_SEATS, additional,
                TEAM_BASE_MONTHLY_CENTS, seatAmount, TEAM_BASE_MONTHLY_CENTS + seatAmount,
                [PriceComponent(TeamBase, TEAM_BASE_MONTHLY_CENTS, 1),
                 PriceComponent(TeamAdditionalSeat, TEAM_ADDITIONAL_SEAT_MONTHLY_CENTS, additional)]))
  }

  function CalculateProMonthlyPrice(members: int): Result<PricingBreakdown, PricingError> {
    if members < 0 then Failure(NegativeMemberCount)
    else Success(PricingBreakdown(members, 0, 0, PRO_MONTHLY_CENTS, 0, PRO_MONTHLY_CENTS,
                                  [PriceComponent(ProMonthly, PRO_MONTHLY_CENTS, 1)]))
  }

  function CalculatePriceForPlan(plan: PlanId, members: int): Result<PricingBreakdown, PricingError> {
    match plan
    case Team => CalculateTeamMonthlyPrice(members)
    case Pro => CalculateProMonthlyPrice(members)
    case Free => Failure(UnpricedPlan)
  }

  function SumOfComponents(cs: seq<PriceComponent>): int {
    if cs == [] then 0 else cs[0].SubtotalCents() + SumOfComponents(cs[1..])
  }

  /** Every priced plan: the total is the sum of what the components charge, and adding
      members never lowers it. */
  lemma TotalIsSumOfComponents(plan: PlanId, members: int, more: int)
    requires 0 <= members <= more
    requires plan != Free
    ensures CalculatePriceForPlan(plan, members).Success? && CalculatePriceForPlan(plan, more).Success?
    ensures var b := CalculatePriceForPlan(plan, members).value;
            && b.totalAmountCents == SumOfComponents(b.components)
            && b.totalAmountCents == b.baseAmountCents + b.additionalSeatAmountCents
            && b.totalAmountCents <= CalculatePriceForPlan(plan, more).value.totalAmountCents
  {
    var b := CalculatePriceForPlan(plan, members).value;
    if plan == Team {
      var rest := b.components[1..];
      assert rest == [PriceComponent(TeamAdditionalSeat, TEAM_ADDITIONAL_SEAT_MONTHLY_CENTS, b.additionalMembers)];
      assert SumOfComponents(rest) == b.additionalSeatAmountCents;
    } else {
      assert b.components[1..] == [];
    }
  }

  datatype DesiredState = DesiredState(
    planId: PlanId,
    billableSeats: int,
    baseQuantity: int,
    additionalSeatQuantity: int,
    calculatedTotalCents: int)

  function CalculateDesiredState(plan: PlanId, seats: int): Result<DesiredState, PricingError> {
    var breakdown :- CalculatePriceForPlan(plan, seats);
    var additional := if plan == Team then Max(0, seats - TEAM_INCLUDED_SEATS) else 0;
    Success(DesiredState(plan, seats, 1, additional, breakdown.totalAmountCents))
  }

  datatype ProrationMode = ProratedImmediately | ProratedNextBillingPeriod

  datatype SeatReconciliationPlan = SeatReconciliationPlan(
    needsUpdate: bool,
    desiredAdditionalQuantity: int,
    observedAdditionalQuantity: int,
    prorationMode: Option<ProrationMode>)

  function CalculateDesiredAdditionalQuantity(members: int): int {
    Max(0, members - TEAM_INCLUDED_SEATS)
  }

  function PlanSeatReconciliation(members: int, observed: int): SeatReconciliationPlan {
    var desired := CalculateDesiredAdditionalQuantity(members);
    if desired == observed then SeatReconciliationPlan(false, desired, observed, None)
    else
      var mode := if desired > observed then ProratedImmediately else ProratedNextBillingPeriod;
      SeatReconciliationPlan(true, desired, observed, Some(mode))
  }

  /** Carrying out a seat plan leaves nothing to do, and an increase is billed at once
      exactly when the price of the desired seats exceeds that of the observed ones. */
  lemma SeatPlanConverges(members: nat, observed: nat)
    ensures var p := PlanSeatReconciliation(members, observed);
            && !PlanSeatReconciliation(members, p.desiredAdditionalQuantity).needsUpdate
            && (p.needsUpdate <==> p.prorationMode.Some?)
            && (p.prorationMode == Some(ProratedImmediately)
                <==> CalculateTeamMonthlyPrice(members).value.totalAmountCents
                     > CalculateTeamMonthlyPrice(TEAM_INCLUDED_SEATS + observed).value.totalAmountCents)
  {
  }

  /** What a seat plan says: the desired quantity is the members beyond 20; it needs an update
      exactly when that is not the observed one, billed at once when seats are added and with
      the next period when they are removed. */
  lemma SeatPlanExactly(members: int, observed: int)
    ensures var p, desired := PlanSeatReconciliation(members, observed), if members > 20 then members - 20 else 0;
            && p.desiredAdditionalQuantity == desired && p.observedAdditionalQuantity == observed
            && (p.needsUpdate <==> desired != observed)
            && (p.prorationMode == None <==> desired == observed)
            && (p.prorationMode == Some(ProratedImmediately) <==> desired > observed)
            && (p.prorationMode == Some(ProratedNextBillingPeriod) <==> desired < observed)
  {
  }

  /** The price of a plan in cents, for every number of members: Team costs 3000 with 20
      members included and 500 for each one more, Pro 1000; Free, and a negative number, has
      no price. */
  lemma PriceExactly(plan: PlanId, members: int)
    ensures var price := CalculatePriceForPlan(plan, members);
            && (price.Success? <==> members >= 0 && plan != Free)
            && (plan == Free ==> price == Failure(UnpricedPlan))
            && (price.Failure? && plan != Free ==> price.error == NegativeMemberCount)
            && (price.Success? ==>
                  var b, more := price.value, if plan == Team && members > 20 then members - 20 else 0;
                  && b.billableMembers == members && b.additionalMembers == more
                  && b.includedMembers == (if plan == Team then 20 else 0)
                  && b.baseAmountCents == (if plan == Team then 3000 else 1000)
                  && b.additionalSeatAmountCents == 500 * more
                  && b.totalAmountCents == (if plan == Team then 3000 + 500 * more else 1000)
                  && b.components == if plan == Team
                                     then [PriceComponent(TeamBase, 3000, 1),
                                           PriceComponent(TeamAdditionalSeat, 500, more)]
                                     else [PriceComponent(ProMonthly, 1000, 1)])
    ensures var state := CalculateDesiredState(plan, members);
            && (state.Success? <==> members >= 0 && plan != Free)
            && (state.Success? ==>
                  state.value == DesiredState(plan, members, 1,
                                              if plan == Team && members > 20 then members - 20 else 0,
                                              if plan == Pro then 1000
                                              else 3000 + 500 * if members > 20 then members - 20 else 0))
  {
  }

  /** The seat fields of a row agree with its plan. */
  predicate SeatsAgree(row: Subscription) {
    && (row.planId == Team ==> row.additionalSeatQuantity >= 0
                               && row.billableSeats == TEAM_INCLUDED_SEATS + row.additionalSeatQuantity)
    && (row.planId == Pro ==> row.billableSeats == 0 && row.additionalSeatQuantity == 0)
  }

  /** On a row whose seats agree with its plan, pricing the stored seats, the desired state,
      and seat reconciliation all reproduce the stored additional quantity. */
  lemma AgreeingSeatsPriceConsistently(row: Subscription)
    requires SeatsAgree(row) && row.planId != Free
    ensures var price := CalculatePriceForPlan(row.planId, row.billableSeats);
            var desired := CalculateDesiredState(row.planId, row.billableSeats);
            && price.Success? && desired.Success?
            && price.value.totalAmountCents == SumOfComponents(price.value.components)
            && desired.value.calculatedTotalCents == price.value.totalAmountCents
            && desired.value.additionalSeatQuantity == row.additionalSeatQuantity
            && (row.planId == Team ==> price.value.totalAmountCents == 3000 + 500 * row.additionalSeatQuantity
                                       && !PlanSeatReconciliation(row.billableSeats,
                                                                  row.additionalSeatQuantity).needsUpdate)
            && (row.planId == Pro ==> price.value.totalAmountCents == 1000)
  {
    TotalIsSumOfComponents(row.planId, row.billableSeats, row.billableSeats);
  }
}
