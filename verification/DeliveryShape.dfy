/** The shape of a Dodo delivery, table by table. */
module DeliveryShape {
  import opened BillingTypes
  import opened Idempotency
  import opened DodoEvents
  import opened DodoProcessor

  predicate SettledIn(t: Tables, k: EventKey) {
    k in t.log && IsSettled(t.log[k].processingStatus)
  }

  /** What the first delivery of an event recorded about it. */
  function Recorded(r: WebhookRow): WebhookRow {
    r.(processingStatus := Pending, attemptCount := 0, errorCategory := NoError)
  }

  /** The subscriptions after a delivery: it writes them only when it is new, did not raise,
      is of a known type, and either creates a row or finds one it is not too old for. */
  function SubscriptionsAfter(t: Tables, e: DodoEvent, env: Env, found: Option<WorkspaceId>, raised: bool)
    : map<WorkspaceId, Subscription>
    requires found.Some? ==> found.value in t.subscriptions
  {
    if SettledIn(t, Key(e)) || raised || e.eventType == Unknown then t.subscriptions
    else if found.None? then
      if CanCreate(t, e) then t.subscriptions[e.workspaceHint.value := CreatedRow(e, env)] else t.subscriptions
    else if Outdated(Begin(t, e), e, t.subscriptions[found.value]) then t.subscriptions
    else t.subscriptions[found.value := UpdatedRow(t.subscriptions[found.value], e, env)]
  }

  lemma DeliverySubscriptions(t: Tables, e: DodoEvent, env: Env, found: Option<WorkspaceId>, raised: bool)
    requires found.Some? ==> found.value in t.subscriptions
    ensures After(t, e, env, found, raised).subscriptions == SubscriptionsAfter(t, e, env, found, raised)
    ensures Process(t, e, env, found, raised).1 == Unresolved ==>
              found.None? && !SettledIn(t, Key(e)) && !raised && IsLifecycle(e.eventType) && !CanCreate(t, e)
  {
  }

  predicate IsUnresolved(t: Tables, e: DodoEvent, found: Option<WorkspaceId>) {
    found.None? && IsLifecycle(e.eventType) && !CanCreate(t, e)
  }

  /** The row of the log a delivery leaves: what the first delivery recorded, one more
      attempt unless it is a duplicate, and the status of this attempt. */
  function LogRowAfter(t: Tables, e: DodoEvent, found: Option<WorkspaceId>, raised: bool): WebhookRow {
    var before := if Key(e) in t.log then t.log[Key(e)] else FreshRow(e);
    if SettledIn(t, Key(e)) then MarkedDuplicate(before)
    else if raised then MarkedFailed(before, Unexpected)
    else if IsUnresolved(t, e, found) then MarkedFailed(before, UnknownReference)
    else MarkedProcessed(before)
  }

  lemma ApplyKeepsLog(t: Tables, e: DodoEvent, env: Env, found: Option<WorkspaceId>)
    requires found.Some? ==> found.value in t.subscriptions
    ensures Apply(t, e, env, found).0.log == t.log && Apply(t, e, env, found).0.workspaces == t.workspaces
    ensures Apply(t, e, env, found).1 == if IsUnresolved(t, e, found) then Some(UnknownReference) else None
  {
  }

  lemma OwnRowSet(t: Tables, e: DodoEvent, r: WebhookRow)
    ensures SetRow(Begin(t, e), Key(e), r) == t.(log := t.log[Key(e) := r])
  {
    assert Begin(t, e).log[Key(e) := r] == t.log[Key(e) := r];
  }

  /** A delivery writes its own row of the log and no other. */
  lemma DeliveryLogRow(t: Tables, e: DodoEvent, env: Env, found: Option<WorkspaceId>, raised: bool)
    requires found.Some? ==> found.value in t.subscriptions
    ensures After(t, e, env, found, raised).log == t.log[Key(e) := LogRowAfter(t, e, found, raised)]
    ensures After(t, e, env, found, raised).workspaces == t.workspaces
  {
    ApplyKeepsLog(Begin(t, e), e, env, found);
    OwnRowSet(t, e, LogRowAfter(t, e, found, raised));
  }

  /** The audit entries a delivery appends. */
  function EntriesAdded(t: Tables, e: DodoEvent, env: Env, found: Option<WorkspaceId>, raised: bool): seq<AuditEvent>
    requires found.Some? ==> found.value in t.subscriptions
  {
    if SettledIn(t, Key(e)) || raised || e.eventType == Unknown then []
    else if found.None? then
      if CanCreate(t, e) then [ActivationEntry(e.workspaceHint.value, CreatedRow(e, env))] else []
    else
      var w, row := found.value, t.subscriptions[found.value];
      if Outdated(Begin(t, e), e, row) then [StaleEntry(w, Dodo, e.eventType)]
      else
        var next := UpdatedRow(row, e, env);
        EventEntries(w, row, next, e, env) + StatusEntry(w, Dodo, row.status, next.status)
  }

  lemma DeliveryAudit(t: Tables, e: DodoEvent, env: Env, found: Option<WorkspaceId>, raised: bool)
    requires found.Some? ==> found.value in t.subscriptions
    ensures After(t, e, env, found, raised).audit == t.audit + EntriesAdded(t, e, env, found, raised)
  {
    if found.Some? && !SettledIn(t, Key(e)) && !raised && e.eventType != Unknown {
      var w, row := found.value, t.subscriptions[found.value];
      var next := UpdatedRow(row, e, env);
      var specific, status := EventEntries(w, row, next, e, env), StatusEntry(w, Dodo, row.status, next.status);
      assert t.audit + specific + status == t.audit + (specific + status);
    }
  }
}
