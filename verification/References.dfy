/** Uniqueness of the provider's references across workspaces, and what depends on it. */
module References {
  import opened BillingTypes
  import opened Lookup
  import opened DodoEvents
  import opened DeliveryShape
  import opened PaddleProcessor
  import opened DodoOperator
  import opened Runs

  lemma DeliveryKeepsReferencesUnique(t: Tables, e: DodoEvent, env: Env, found: Option<WorkspaceId>, raised: bool)
    requires ReferencesUnique(t.subscriptions, Dodo)
    requires IsFirstMatch(t.subscriptions, Dodo, e.subscriptionReference, e.customerReference, found)
    ensures ReferencesUnique(SubscriptionsAfter(t, e, env, found, raised), Dodo)
  {
  }

  predicate KeepsReferences(row: Subscription, next: Subscription) {
    && next.provider == row.provider
    && (next.subscriptionReference == row.subscriptionReference || next.subscriptionReference == None)
    && (next.customerReference == row.customerReference || next.customerReference == None)
  }

  /** No row appears, and none gains a reference. */
  ghost predicate NoneGains(subs: map<WorkspaceId, Subscription>, n: map<WorkspaceId, Subscription>) {
    forall w :: w in n ==> w in subs && KeepsReferences(subs[w], n[w])
  }

  lemma PaddleDeliveryKeepsReferences(t: Tables, e: PaddleEvent, env: Env, found: Option<WorkspaceId>, raised: bool)
    requires found.Some? ==> found.value in t.subscriptions
    ensures NoneGains(t.subscriptions, AfterPaddle(t, e, env, found, raised).subscriptions)
  {
  }

  lemma PaddleReconcileKeepsReferences(t: Tables, w: WorkspaceId, snapshot: Option<PaddleSnapshot>, members: nat,
                                       env: Env)
    ensures NoneGains(t.subscriptions, ReconcilePaddle(t, w, snapshot, members, env).0.subscriptions)
  {
  }

  /** Preparation clears both. */
  lemma PreparationKeepsReferences(t: Tables, w: WorkspaceId, expected: string, apply: bool, env: Env)
    ensures NoneGains(t.subscriptions, Prepare(t, w, expected, apply, env).0.subscriptions)
  {
  }

  lemma OtherStepsKeepReferences(t: Tables, s: Step)
    requires Possible(t, s) && !s.DodoReconcile? && !s.DodoDelivery?
    ensures NoneGains(t.subscriptions, Next(t, s).subscriptions)
  {
    match s
    case PaddleDelivery(e, env, found, raised) => PaddleDeliveryKeepsReferences(t, e, env, found, raised);
    case PaddleReconcile(w, snapshot, members, env) => PaddleReconcileKeepsReferences(t, w, snapshot, members, env);
    case PreparePilot(w, expected, apply, env) => PreparationKeepsReferences(t, w, expected, apply, env);
    case AddWorkspace(_) =>
  }

  lemma NoneGainsKeepsUnique(subs: map<WorkspaceId, Subscription>, n: map<WorkspaceId, Subscription>)
    requires ReferencesUnique(subs, Dodo) && NoneGains(subs, n)
    ensures ReferencesUnique(n, Dodo)
  {
  }

  lemma StepKeepsReferencesUnique(t: Tables, s: Step)
    requires Possible(t, s) && !s.DodoReconcile?
    requires ReferencesUnique(t.subscriptions, Dodo)
    ensures ReferencesUnique(Next(t, s).subscriptions, Dodo)
  {
    if s.DodoDelivery? {
      DeliverySubscriptions(t, s.event, s.env, s.found, s.raised);
      DeliveryKeepsReferencesUnique(t, s.event, s.env, s.found, s.raised);
    } else {
      OtherStepsKeepReferences(t, s);
      NoneGainsKeepsUnique(t.subscriptions, Next(t, s).subscriptions);
    }
  }

  predicate WithoutReconcile(steps: seq<Step>) {
    forall i :: 0 <= i < |steps| ==> !steps[i].DodoReconcile?
  }

  /** Every run of deliveries and pilot preparations keeps subscription references, and
      customer references, pairwise distinct across Dodo rows. */
  lemma {:induction false} ReferencesStayUnique(t: Tables, steps: seq<Step>)
    requires ValidRun(t, steps) && WithoutReconcile(steps)
    requires ReferencesUnique(t.subscriptions, Dodo)
    ensures ReferencesUnique(Run(t, steps).subscriptions, Dodo)
    decreases |steps|
  {
    if steps != [] {
      StepKeepsReferencesUnique(t, steps[0]);
      ReferencesStayUnique(Next(t, steps[0]), steps[1..]);
    }
  }

  /** So the row order never matters: after such a run, an event has one possible lookup
      answer and hence one possible effect. */
  lemma DeliveriesAreDeterministic(t: Tables, steps: seq<Step>, e: DodoEvent, env: Env, raised: bool,
                                   a: Option<WorkspaceId>, b: Option<WorkspaceId>)
    requires ValidRun(t, steps) && WithoutReconcile(steps)
    requires ReferencesUnique(t.subscriptions, Dodo)
    requires Possible(Run(t, steps), DodoDelivery(e, env, a, raised))
    requires Possible(Run(t, steps), DodoDelivery(e, env, b, raised))
    ensures a == b
  {
    ReferencesStayUnique(t, steps);
    UniqueReferencesDetermineLookup(Run(t, steps).subscriptions, Dodo, e.subscriptionReference, e.customerReference,
                                    a, b);
  }

  // ----- Reconciliation -----

  predicate HeldByAnother(subs: map<WorkspaceId, Subscription>, w: WorkspaceId, reference: Option<string>) {
    exists v :: v in subs && v != w && HasSubscriptionReference(subs[v], Dodo, reference)
  }

  predicate CustomerHeldByAnother(subs: map<WorkspaceId, Subscription>, w: WorkspaceId, reference: Option<string>) {
    exists v :: v in subs && v != w && HasCustomerReference(subs[v], Dodo, reference)
  }

  predicate Writes(o: ReconcileOutcome) {
    o.Created? || o.Replaced?
  }

  lemma ReconciledReferences(t: Tables, w: WorkspaceId, id: string, fetch: ProviderOracle, live: bool, env: Env)
    requires Writes(Reconcile(t, w, id, fetch, live, true, env).1)
    ensures fetch(id).Body? && fetch(id).data.Some?
    ensures var n, d := Reconcile(t, w, id, fetch, live, true, env).0.subscriptions, fetch(id).data.value;
            && w in n && n == t.subscriptions[w := n[w]] && n[w].provider == Dodo
            && (w in t.subscriptions ==> t.subscriptions[w].provider == Dodo)
            && n[w].subscriptionReference == NonEmpty(d.subscriptionId)
            && n[w].customerReference
               == (if d.customerId == "" && w in t.subscriptions then t.subscriptions[w].customerReference
                   else NonEmpty(d.customerId))
  {
  }

  /** Writing one Dodo row into unique references. */
  lemma WriteKeepsUniqueExactly(subs: map<WorkspaceId, Subscription>, w: WorkspaceId, row: Subscription)
    requires ReferencesUnique(subs, Dodo) && row.provider == Dodo
    ensures SubscriptionReferencesUnique(subs[w := row], Dodo) <==> !HeldByAnother(subs, w, row.subscriptionReference)
    ensures CustomerReferencesUnique(subs[w := row], Dodo) <==> !CustomerHeldByAnother(subs, w, row.customerReference)
  {
    var n := subs[w := row];
    if v :| v in subs && v != w && HasSubscriptionReference(subs[v], Dodo, row.subscriptionReference) {
      assert n[v].subscriptionReference == n[w].subscriptionReference;
    }
    if v :| v in subs && v != w && HasCustomerReference(subs[v], Dodo, row.customerReference) {
      assert n[v].customerReference == n[w].customerReference;
    }
  }

  /** An applied reconciliation keeps the references unique exactly when no other Dodo row
      holds the subscription, or the customer, the provider reports for the requested id. */
  lemma ReconcileKeepsUniqueExactly(t: Tables, w: WorkspaceId, id: string, fetch: ProviderOracle, live: bool, env: Env)
    requires ReferencesUnique(t.subscriptions, Dodo)
    requires Writes(Reconcile(t, w, id, fetch, live, true, env).1)
    ensures fetch(id).Body? && fetch(id).data.Some?
    ensures var n, d := Reconcile(t, w, id, fetch, live, true, env).0, fetch(id).data.value;
            && (SubscriptionReferencesUnique(n.subscriptions, Dodo)
                <==> !HeldByAnother(t.subscriptions, w, Some(d.subscriptionId)))
            && (CustomerReferencesUnique(n.subscriptions, Dodo)
                <==> !CustomerHeldByAnother(t.subscriptions, w, Some(d.customerId)))
  {
    var n := Reconcile(t, w, id, fetch, live, true, env).0;
    ReconciledReferences(t, w, id, fetch, live, env);
    WriteKeepsUniqueExactly(t.subscriptions, w, n.subscriptions[w]);
  }

  /** If the step is a reconciliation that will write: no other Dodo row holds an id the
      provider reports. */
  predicate ReportedIdsAreFree(t: Tables, s: Step) {
    s.DodoReconcile? && GoesThrough(t, s.workspace, s.subscriptionId, s.fetch, s.live, s.apply, s.env)
    && s.fetch(s.subscriptionId).Body? && s.fetch(s.subscriptionId).data.Some? ==>
      && !HeldByAnother(t.subscriptions, s.workspace, Some(s.fetch(s.subscriptionId).data.value.subscriptionId))
      && !CustomerHeldByAnother(t.subscriptions, s.workspace, Some(s.fetch(s.subscriptionId).data.value.customerId))
  }

  lemma StepKeepsUniqueExactly(t: Tables, s: Step)
    requires Possible(t, s) && ReferencesUnique(t.subscriptions, Dodo)
    ensures ReferencesUnique(Next(t, s).subscriptions, Dodo) <==> ReportedIdsAreFree(t, s)
  {
    if !s.DodoReconcile? {
      StepKeepsReferencesUnique(t, s);
    } else if GoesThrough(t, s.workspace, s.subscriptionId, s.fetch, s.live, s.apply, s.env) {
      ReconcileKeepsUniqueExactly(t, s.workspace, s.subscriptionId, s.fetch, s.live, s.env);
    } else {
      assert Next(t, s) == t;
    }
  }

  ghost predicate UniqueThroughout(t: Tables, steps: seq<Step>)
    requires ValidRun(t, steps)
    decreases |steps|
  {
    && ReferencesUnique(t.subscriptions, Dodo)
    && (steps == [] || UniqueThroughout(Next(t, steps[0]), steps[1..]))
  }

  predicate ReportedIdsStayFree(t: Tables, steps: seq<Step>)
    requires ValidRun(t, steps)
    decreases |steps|
  {
    steps == [] || (ReportedIdsAreFree(t, steps[0]) && ReportedIdsStayFree(Next(t, steps[0]), steps[1..]))
  }

  /** Over every run, of any steps, the references are unique at every point exactly when
      each reconciliation that writes is reported ids no other Dodo row holds at the time. */
  lemma {:induction false} UniqueThroughoutExactly(t: Tables, steps: seq<Step>)
    requires ValidRun(t, steps) && ReferencesUnique(t.subscriptions, Dodo)
    ensures UniqueThroughout(t, steps) <==> ReportedIdsStayFree(t, steps)
    decreases |steps|
  {
    if steps != [] {
      StepKeepsUniqueExactly(t, steps[0]);
      if ReportedIdsAreFree(t, steps[0]) {
        UniqueThroughoutExactly(Next(t, steps[0]), steps[1..]);
      }
    }
  }

  lemma {:induction false} UniqueAtTheEnd(t: Tables, steps: seq<Step>)
    requires ValidRun(t, steps) && UniqueThroughout(t, steps)
    ensures ReferencesUnique(Run(t, steps).subscriptions, Dodo)
    decreases |steps|
  {
    if steps != [] {
      UniqueAtTheEnd(Next(t, steps[0]), steps[1..]);
    }
  }

  /** When the provider echoes the requested id, subscription references stay unique exactly
      when the workspace has a row already, or no other Dodo row holds the id: replacing
      checks that no other workspace holds it, creating checks nothing. */
  lemma EchoedReconcileKeepsUniqueExactly(t: Tables, w: WorkspaceId, id: string, fetch: ProviderOracle, live: bool,
                                          env: Env)
    requires ReferencesUnique(t.subscriptions, Dodo)
    requires Writes(Reconcile(t, w, id, fetch, live, true, env).1)
    requires fetch(id).Body? && fetch(id).data.Some? && fetch(id).data.value.subscriptionId == id
    ensures SubscriptionReferencesUnique(Reconcile(t, w, id, fetch, live, true, env).0.subscriptions, Dodo)
            <==> w in t.subscriptions || !HeldByAnother(t.subscriptions, w, Some(id))
  {
    ReconcileKeepsUniqueExactly(t, w, id, fetch, live, env);
    if w in t.subscriptions {
      assert !AttachedToAnother(t.subscriptions, w, id);
    }
  }

  /** So a replacement never duplicates a reference the provider echoes. */
  lemma ReplaceKeepsSubscriptionReferencesUnique(t: Tables, w: WorkspaceId, id: string, fetch: ProviderOracle,
                                                 live: bool, env: Env)
    requires ReferencesUnique(t.subscriptions, Dodo)
    requires Reconcile(t, w, id, fetch, live, true, env).1.Replaced?
    requires fetch(id).Body? && fetch(id).data.Some? && fetch(id).data.value.subscriptionId == id
    ensures SubscriptionReferencesUnique(Reconcile(t, w, id, fetch, live, true, env).0.subscriptions, Dodo)
  {
    EchoedReconcileKeepsUniqueExactly(t, w, id, fetch, live, env);
  }

  /** Creating does not: reconciling a second workspace with a subscription a first one
      already holds stores the same reference twice. */
  lemma ReconcileCreateCanDuplicate() returns (t: Tables, w: WorkspaceId, id: string, fetch: ProviderOracle, env: Env)
    ensures ReferencesUnique(t.subscriptions, Dodo)
    ensures Reconcile(t, w, id, fetch, false, true, env).1 == Created
    ensures !SubscriptionReferencesUnique(Reconcile(t, w, id, fetch, false, true, env).0.subscriptions, Dodo)
  {
    var settings := Settings("dodo", TestMode, true, Some("pro"), Some("team"), Some("seat"), None, 7);
    env := Env(100, settings);
    id, w := "sub", 2;
    var held := Subscription(Dodo, Some("cus"), Some("sub"), Pro, Month, Active, 0, 0, None, None, false, None,
                             NoEvent, 0, 50);
    t := Tables({1, 2}, map[1 := held], map[], []);
    fetch := (s: string) => Body(Some(DodoSubscription(s, "cus", "active", "pro", None, [], None, None, false)));
    var (n, outcome) := Reconcile(t, w, id, fetch, false, true, env);
    assert fetch(id).data.value.status == "active";
    assert outcome == Created;
    assert n.subscriptions[1].subscriptionReference == n.subscriptions[2].subscriptionReference == Some("sub");
  }
}
