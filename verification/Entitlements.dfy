/** Status vocabularies of the three providers, and the entitlement decision that reads them. */
module Entitlements {
  import opened BillingTypes

  /** The stored spelling of a normalized status. */
  function StatusValue(s: Status): string {
    match s
    case Trialing => "trialing"
    case Active => "active"
    case PastDue => "past_due"
    case GracePeriod => "grace_period"
    case Paused => "paused"
    case Canceled => "canceled"
    case Expired => "expired"
    case Incomplete => "incomplete"
  }

  function NormalizeDodoStatus(raw: string): Status {
    if raw == "pending" then Incomplete
    else if raw == "active" then Active
    else if raw == "on_hold" then PastDue
    else if raw == "cancelled" then Canceled
    else if raw == "failed" then Incomplete
    else if raw == "expired" then Expired
    else if raw == "trialing" then Trialing
    else if raw == "past_due" then PastDue
    else if raw == "grace_period" then GracePeriod
    else if raw == "paused" then Paused
    else if raw == "canceled" then Canceled
    else Incomplete
  }

  function NormalizePaddleStatus(raw: string): Status {
    if raw == "trialing" then Trialing
    else if raw == "active" then Active
    else if raw == "past_due" then PastDue
    else if raw == "paused" then Paused
    else if raw == "canceled" then Canceled
    else Incomplete
  }

  function NormalizeStripeStatus(raw: string): Status {
    if raw == "trialing" then Trialing
    else if raw == "active" then Active
    else if raw == "past_due" then PastDue
    else if raw == "canceled" then Canceled
    else if raw == "unpaid" then Expired
    else if raw == "incomplete" then Incomplete
    else if raw == "incomplete_expired" then Expired
    else if raw == "paused" then Paused
    else Incomplete
  }

  /** The statuses Paddle's table has an entry for, or falls back to. */
  predicate PaddleWritable(s: Status) {
    s != GracePeriod && s != Expired
  }

  /** Reading a stored Dodo status back through the normalizer gives the status that was
      stored, for every status a row can hold. */
  lemma DodoStoredStatusIsFixed(s: Status)
    ensures NormalizeDodoStatus(StatusValue(s)) == s
  {
    var v := StatusValue(s);
    match s
    case Trialing => assert |v| == 8 && v[0] == 't';
    case Active => assert |v| == 6;
    case PastDue => assert |v| == 8 && v[0] == 'p' && v[1] == 'a';
    case GracePeriod => assert |v| == 12;
    case Paused => assert |v| == 6 && v[0] == 'p';
    case Canceled => assert |v| == 8 && v[0] == 'c';
    case Expired => assert |v| == 7 && v[0] == 'e';
    case Incomplete => assert |v| == 10 && v[0] == 'i';
  }

  /** Paddle's table has no entry for two normalized statuses, so exactly the other
      stored statuses are fixed points. */
  lemma PaddleStoredStatusIsFixed(s: Status)
    ensures NormalizePaddleStatus(StatusValue(s)) == s <==> PaddleWritable(s)
  {
    var v := StatusValue(s);
    match s
    case Trialing => assert |v| == 8 && v[0] == 't';
    case Active => assert |v| == 6 && v[0] == 'a';
    case PastDue => assert |v| == 8 && v[0] == 'p';
    case GracePeriod => assert |v| == 12;
    case Paused => assert |v| == 6 && v[0] == 'p';
    case Canceled => assert |v| == 8 && v[0] == 'c';
    case Expired => assert |v| == 7;
    case Incomplete => assert |v| == 10;
  }

  lemma PaddleNormalizationIsIdempotent(raw: string)
    ensures PaddleWritable(NormalizePaddleStatus(raw))
    ensures NormalizePaddleStatus(StatusValue(NormalizePaddleStatus(raw))) == NormalizePaddleStatus(raw)
  {
    PaddleStoredStatusIsFixed(NormalizePaddleStatus(raw));
  }

  predicate GrantsPaidAccess(s: Status) {
    s == Trialing || s == Active || s == PastDue || s == GracePeriod
  }

  /** Stripe's table is not idempotent: the two spellings that mean a terminal payment
      failure read back as incomplete. They are the only such spellings, and no access
      decision depends on the difference. */
  lemma StripeNormalizationIdempotentExactly(raw: string)
    ensures NormalizeStripeStatus(StatusValue(NormalizeStripeStatus(raw))) == NormalizeStripeStatus(raw)
            <==> raw != "unpaid" && raw != "incomplete_expired"
    ensures GrantsPaidAccess(NormalizeStripeStatus(StatusValue(NormalizeStripeStatus(raw))))
            <==> GrantsPaidAccess(NormalizeStripeStatus(raw))
  {
    var s := NormalizeStripeStatus(raw);
    var v := StatusValue(s);
    match s
    case Trialing => assert |v| == 8 && v[0] == 't';
    case Active => assert |v| == 6 && v[0] == 'a';
    case PastDue => assert |v| == 8 && v[0] == 'p';
    case Paused => assert |v| == 6 && v[0] == 'p';
    case Canceled => assert |v| == 8 && v[0] == 'c';
    case Expired => assert |v| == 7;
    case Incomplete => assert |v| == 10 && v[0] == 'i';
  }

  // ----- Which spellings mean what -----

  /** The spellings of a status in Dodo's vocabulary and in the store. Anything not listed
      means incomplete. */
  predicate DodoSpelling(raw: string, s: Status) {
    match s
    case Trialing => raw == "trialing"
    case Active => raw == "active"
    case PastDue => raw == "on_hold" || raw == "past_due"
    case GracePeriod => raw == "grace_period"
    case Paused => raw == "paused"
    case Canceled => raw == "cancelled" || raw == "canceled"
    case Expired => raw == "expired"
    case Incomplete => raw !in {"trialing", "active", "on_hold", "past_due", "grace_period", "paused", "cancelled",
                                "canceled", "expired"}
  }

  /** Every Dodo spelling is read as the one status it is listed under, and it gives paid
      access exactly when it is one of five. */
  lemma DodoSpellingsExactly(raw: string, s: Status)
    ensures NormalizeDodoStatus(raw) == s <==> DodoSpelling(raw, s)
    ensures GrantsPaidAccess(NormalizeDodoStatus(raw))
            <==> raw in {"active", "trialing", "on_hold", "past_due", "grace_period"}
  {
    DodoSpellingsDiffer(raw);
    assert |"trialing"| == 8 && "trialing"[0] == 't' && |"paused"| == 6 && "paused"[0] == 'p';
  }

  /** No text is listed twice. */
  lemma DodoSpellingsDiffer(raw: string)
    ensures raw == "trialing" || raw == "past_due" || raw == "canceled" ==> |raw| == 8
    ensures raw == "active" || raw == "paused" ==> |raw| == 6
    ensures raw == "on_hold" || raw == "expired" ==> |raw| == 7
    ensures raw == "grace_period" ==> |raw| == 12
    ensures raw == "cancelled" ==> |raw| == 9
    ensures raw == "trialing" ==> raw[0] == 't'
    ensures raw == "past_due" || raw == "paused" ==> raw[0] == 'p'
    ensures raw == "canceled" ==> raw[0] == 'c'
    ensures raw == "active" ==> raw[0] == 'a'
    ensures raw == "on_hold" ==> raw[0] == 'o'
    ensures raw == "expired" ==> raw[0] == 'e'
  {
  }

  /** What a Dodo status spells is stored under a spelling of the same status: reading it again
      changes nothing. */
  lemma DodoNormalizationIsIdempotent(raw: string, s: Status)
    requires DodoSpelling(raw, s)
    ensures DodoSpelling(StatusValue(s), s)
    ensures NormalizeDodoStatus(raw) == s == NormalizeDodoStatus(StatusValue(s))
  {
    DodoSpellingsExactly(raw, s);
    DodoStoredStatusIsFixed(s);
    DodoSpellingsExactly(StatusValue(s), s);
  }

  /** Paddle's vocabulary has five words; anything else means incomplete. */
  predicate PaddleSpelling(raw: string, s: Status) {
    match s
    case Trialing => raw == "trialing"
    case Active => raw == "active"
    case PastDue => raw == "past_due"
    case Paused => raw == "paused"
    case Canceled => raw == "canceled"
    case Incomplete => raw !in {"trialing", "active", "past_due", "paused", "canceled"}
    case GracePeriod => false
    case Expired => false
  }

  lemma PaddleSpellingsExactly(raw: string, s: Status)
    ensures NormalizePaddleStatus(raw) == s <==> PaddleSpelling(raw, s)
    ensures GrantsPaidAccess(NormalizePaddleStatus(raw)) <==> raw in {"trialing", "active", "past_due"}
  {
    DodoSpellingsDiffer(raw);
  }

  /** Stripe's has eight, two of which mean expired. */
  predicate StripeSpelling(raw: string, s: Status) {
    match s
    case Trialing => raw == "trialing"
    case Active => raw == "active"
    case PastDue => raw == "past_due"
    case Paused => raw == "paused"
    case Canceled => raw == "canceled"
    case Expired => raw == "unpaid" || raw == "incomplete_expired"
    case Incomplete => raw !in {"trialing", "active", "past_due", "paused", "canceled", "unpaid", "incomplete_expired"}
    case GracePeriod => false
  }

  lemma StripeSpellingsExactly(raw: string, s: Status)
    ensures NormalizeStripeStatus(raw) == s <==> StripeSpelling(raw, s)
    ensures GrantsPaidAccess(NormalizeStripeStatus(raw)) <==> raw in {"trialing", "active", "past_due"}
  {
    DodoSpellingsDiffer(raw);
    assert |"unpaid"| == 6 && "unpaid"[0] == 'u' && |"incomplete_expired"| == 18;
  }

  // ----- The decision -----

  datatype Entitlement = Entitlement(
    maxIntegrations: nat,
    maxMembers: nat,
    minSyncIntervalMinutes: nat,
    historyRetentionDays: nat,
    includesAuditLogs: bool)

  function PlanEntitlement(p: PlanId): Entitlement {
    match p
    case Free => Entitlement(3, 1, 60, 30, false)
    case Pro => Entitlement(20, 5, 15, 180, false)
    case Team => Entitlement(100, 25, 5, 365, true)
  }

  datatype Decision = Decision(
    hasPaidAccess: bool,
    planId: PlanId,
    status: Status,
    limits: Entitlement,
    gracePeriodEnd: Option<Timestamp>,
    managementAvailable: bool,
    sourceProvider: Option<Provider>)

  function DecideEntitlements(plan: PlanId, status: Status, graceEnd: Option<Timestamp>,
                              source: Option<Provider>): Decision {
    var paid := GrantsPaidAccess(status);
    var effective := if paid then plan else Free;
    Decision(paid, effective, status, PlanEntitlement(effective), graceEnd, paid || status == Paused, source)
  }

  function WorkspaceDecision(row: Subscription): Decision {
    DecideEntitlements(row.planId, row.status, row.gracePeriodEnd, Some(row.provider))
  }

  /** What a workspace may do: four statuses pay; the plan bought counts while they do, and
      otherwise the Free limits; a paused customer can still manage the subscription. */
  lemma DecisionExactly(plan: PlanId, status: Status, graceEnd: Option<Timestamp>, source: Option<Provider>)
    ensures var d := DecideEntitlements(plan, status, graceEnd, source);
            && (d.hasPaidAccess <==> status in {Trialing, Active, PastDue, GracePeriod})
            && (d.managementAvailable <==> d.hasPaidAccess || status == Paused)
            && (!d.hasPaidAccess ==> d.planId == Free && d.limits == Entitlement(3, 1, 60, 30, false))
            && (d.hasPaidAccess ==> d.planId == plan)
            && (d.planId == Free ==> d.limits == Entitlement(3, 1, 60, 30, false))
            && (d.planId == Pro ==> d.limits == Entitlement(20, 5, 15, 180, false))
            && (d.planId == Team ==> d.limits == Entitlement(100, 25, 5, 365, true))
            && d.status == status && d.gracePeriodEnd == graceEnd && d.sourceProvider == source
  {
  }

  /** Every limit of the lower plan is tighter. */
  predicate StrictlyBelow(a: Entitlement, b: Entitlement) {
    && a.maxIntegrations < b.maxIntegrations && a.maxMembers < b.maxMembers
    && a.minSyncIntervalMinutes > b.minSyncIntervalMinutes && a.historyRetentionDays < b.historyRetentionDays
    && (a.includesAuditLogs ==> b.includesAuditLogs)
  }

  lemma PlansAreStrictlyOrdered()
    ensures StrictlyBelow(PlanEntitlement(Free), PlanEntitlement(Pro))
    ensures StrictlyBelow(PlanEntitlement(Pro), PlanEntitlement(Team))
    ensures forall p :: PlanEntitlement(p).includesAuditLogs <==> p == Team
  {
  }

  /** Re-reading the stored spelling of a Dodo row never changes what its workspace may do. */
  lemma RereadingKeepsEntitlement(row: Subscription)
    ensures WorkspaceDecision(row.(status := NormalizeDodoStatus(StatusValue(row.status))))
            == WorkspaceDecision(row)
    ensures WorkspaceDecision(row).hasPaidAccess <==> row.status in {Trialing, Active, PastDue, GracePeriod}
  {
    DodoStoredStatusIsFixed(row.status);
  }
}
