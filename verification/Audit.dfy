/** The append-only audit log and its detail-key filter. */
module Audit {
  import opened BillingTypes

  const ALLOWED_DETAIL_KEYS: set<DetailKey> := {
    PlanIdKey, BillingIntervalKey, BillableSeatsKey, PreviousStatusKey, NewStatusKey,
    PreviousPlanIdKey, NewPlanIdKey, ReasonKey, GracePeriodEndKey, ExternalEventIdKey, EventTypeKey }

  function SafeDetails(details: map<DetailKey, DetailValue>): map<DetailKey, DetailValue> {
    map k | k in details && k in ALLOWED_DETAIL_KEYS :: details[k]
  }

  function Entry(w: WorkspaceId, t: AuditEventType, p: Provider, details: map<DetailKey, DetailValue>): AuditEvent {
    AuditEvent(w, t, Some(p), SafeDetails(details))
  }

  function StatusDetails(previous: Status, next: Status): map<DetailKey, DetailValue> {
    map[PreviousStatusKey := StatusDetail(previous), NewStatusKey := StatusDetail(next)]
  }

  /** An entry of `w` that records a status change of its subscription. */
  predicate CarriesStatus(a: AuditEvent, w: WorkspaceId) {
    && a.workspace == w
    && a.eventType == AuditEventType.SubscriptionChanged
    && PreviousStatusKey in a.details && a.details[PreviousStatusKey].StatusDetail?
    && NewStatusKey in a.details && a.details[NewStatusKey].StatusDetail?
  }

  function StatusEntries(log: seq<AuditEvent>, w: WorkspaceId): (r: seq<AuditEvent>)
    ensures forall i :: 0 <= i < |r| ==> CarriesStatus(r[i], w)
  {
    if log == [] then []
    else if CarriesStatus(log[0], w) then [log[0]] + StatusEntries(log[1..], w)
    else StatusEntries(log[1..], w)
  }

  /** The entries lead from one status to another, each starting where the last one ended. */
  predicate Chain(entries: seq<AuditEvent>, w: WorkspaceId, from: Status, to: Status)
    requires forall i :: 0 <= i < |entries| ==> CarriesStatus(entries[i], w)
  {
    if entries == [] then from == to
    else
      assert CarriesStatus(entries[0], w);
      && entries[0].details[PreviousStatusKey].status == from
      && Chain(entries[1..], w, entries[0].details[NewStatusKey].status, to)
  }

  lemma {:induction false} StatusEntriesConcat(a: seq<AuditEvent>, b: seq<AuditEvent>, w: WorkspaceId)
    ensures StatusEntries(a + b, w) == StatusEntries(a, w) + StatusEntries(b, w)
  {
    if a == [] {
      assert a + b == b;
    } else {
      assert (a + b)[1..] == a[1..] + b;
      StatusEntriesConcat(a[1..], b, w);
    }
  }

  lemma {:induction false} ChainConcat(a: seq<AuditEvent>, b: seq<AuditEvent>, w: WorkspaceId,
                                       from: Status, mid: Status, to: Status)
    requires forall i :: 0 <= i < |a| ==> CarriesStatus(a[i], w)
    requires forall i :: 0 <= i < |b| ==> CarriesStatus(b[i], w)
    requires Chain(a, w, from, mid) && Chain(b, w, mid, to)
    ensures Chain(a + b, w, from, to)
  {
    if a == [] {
      assert a + b == b;
    } else {
      assert (a + b)[1..] == a[1..] + b;
      ChainConcat(a[1..], b, w, a[0].details[NewStatusKey].status, mid, to);
    }
  }

  /** The filter keeps every detail the status chain is read from, and drops what is not
      on the allowlist. */
  lemma FilterKeepsStatusDetails(details: map<DetailKey, DetailValue>)
    ensures forall k :: k in SafeDetails(details) <==> k in details && !k.Unlisted?
    ensures forall k :: k in SafeDetails(details) ==> SafeDetails(details)[k] == details[k]
    ensures SafeDetails(SafeDetails(details)) == SafeDetails(details)
  {
  }
}
