/** The audit log retells the status history of every workspace. */
module AuditTrail {
  import opened BillingTypes
  import opened DodoEvents
  import opened DodoProcessor
  import opened DeliveryShape
  import opened PaddleProcessor
  import opened DodoOperator
  import opened Runs
  import opened Audit
  import Entitlements
  import Idempotency
  import RowHistory

  lemma {:induction false} NoStatusEntries(entries: seq<AuditEvent>, w: WorkspaceId)
    requires forall i :: 0 <= i < |entries| ==> !CarriesStatus(entries[i], w)
    ensures StatusEntries(entries, w) == []
  {
    if entries != [] {
      NoStatusEntries(entries[1..], w);
    }
  }

  /** The entry written for a status change is a chain of its own, for its workspace only. */
  lemma StatusEntryIsAChain(v: WorkspaceId, p: Provider, before: Status, after: Status, w: WorkspaceId)
    ensures v == w ==> Chain(StatusEntries(StatusEntry(v, p, before, after), w), w, before, after)
    ensures v != w ==> StatusEntries(StatusEntry(v, p, before, after), w) == []
  {
    var entries := StatusEntry(v, p, before, after);
    if entries != [] {
      assert entries[1..] == [];
      if v == w {
        assert CarriesStatus(entries[0], w);
        assert StatusEntries(entries, w) == [entries[0]];
        assert [entries[0]][1..] == [];
      }
    }
  }

  /** `n` extends the audit log of `t` by entries that carry no status of `w`, and then a
      status entry of the row of `v`, if its status changed. */
  ghost predicate Extends(t: Tables, n: Tables, v: WorkspaceId, p: Provider, plain: seq<AuditEvent>) {
    && v in t.subscriptions && v in n.subscriptions
    && n.audit == t.audit + plain + StatusEntry(v, p, t.subscriptions[v].status, n.subscriptions[v].status)
    && (forall i :: 0 <= i < |plain| ==>
          && plain[i].workspace == v
          && !(PreviousStatusKey in plain[i].details && plain[i].eventType == SubscriptionChanged))
  }

  /** What a step adds to the log about `w` leads from its status before to its status after. */
  ghost predicate Continues(t: Tables, n: Tables, w: WorkspaceId) {
    && t.audit <= n.audit
    && var added := StatusEntries(n.audit[|t.audit|..], w);
       if w in t.subscriptions then
         w in n.subscriptions && Chain(added, w, t.subscriptions[w].status, n.subscriptions[w].status)
       else added == []
  }

  lemma ExtensionContinues(t: Tables, n: Tables, v: WorkspaceId, p: Provider, plain: seq<AuditEvent>, w: WorkspaceId)
    requires Extends(t, n, v, p, plain)
    requires forall u: WorkspaceId :: u != v ==> RowAt(n, u) == RowAt(t, u)
    ensures Continues(t, n, w)
  {
    var before, after := t.subscriptions[v].status, n.subscriptions[v].status;
    assert n.audit[|t.audit|..] == plain + StatusEntry(v, p, before, after);
    NoStatusEntries(plain, w);
    StatusEntriesConcat(plain, StatusEntry(v, p, before, after), w);
    StatusEntryIsAChain(v, p, before, after, w);
    assert [] + StatusEntries(StatusEntry(v, p, before, after), w)
           == StatusEntries(StatusEntry(v, p, before, after), w);
    if w != v {
      assert RowAt(n, w) == RowAt(t, w);
    }
  }

  /** A step that adds only entries without a status, and changes no status, continues. */
  lemma PlainContinues(t: Tables, n: Tables, plain: seq<AuditEvent>, w: WorkspaceId)
    requires n.audit == t.audit + plain
    requires forall i :: 0 <= i < |plain| ==> !CarriesStatus(plain[i], w)
    requires w in t.subscriptions ==> w in n.subscriptions && n.subscriptions[w].status == t.subscriptions[w].status
    ensures Continues(t, n, w)
  {
    assert n.audit[|t.audit|..] == plain;
    NoStatusEntries(plain, w);
  }

  /** The entries of a delivery, and the rows it leaves, continue the trail. */
  lemma DeliveryEntriesContinue(t: Tables, n: Tables, e: DodoEvent, env: Env, found: Option<WorkspaceId>, raised: bool,
                                w: WorkspaceId)
    requires found.Some? ==> found.value in t.subscriptions
    requires n.audit == t.audit + EntriesAdded(t, e, env, found, raised)
    requires n.subscriptions == SubscriptionsAfter(t, e, env, found, raised)
    ensures Continues(t, n, w)
  {
    if !SettledIn(t, Key(e)) && !raised && e.eventType != Unknown && found.Some?
       && !Outdated(Begin(t, e), e, t.subscriptions[found.value]) {
      var v, row := found.value, t.subscriptions[found.value];
      var plain := EventEntries(v, row, UpdatedRow(row, e, env), e, env);
      assert n.audit == t.audit + plain + StatusEntry(v, Dodo, row.status, n.subscriptions[v].status);
      ExtensionContinues(t, n, v, Dodo, plain, w);
    } else {
      PlainContinues(t, n, EntriesAdded(t, e, env, found, raised), w);
    }
  }

  lemma DodoDeliveryContinues(t: Tables, e: DodoEvent, env: Env, found: Option<WorkspaceId>, raised: bool,
                              w: WorkspaceId)
    requires found.Some? ==> found.value in t.subscriptions
    ensures Continues(t, After(t, e, env, found, raised), w)
  {
    DeliverySubscriptions(t, e, env, found, raised);
    DeliveryAudit(t, e, env, found, raised);
    DeliveryEntriesContinue(t, After(t, e, env, found, raised), e, env, found, raised, w);
  }

  lemma PaddleDeliveryContinues(t: Tables, e: PaddleEvent, env: Env, found: Option<WorkspaceId>, raised: bool,
                                w: WorkspaceId)
    requires Possible(t, PaddleDelivery(e, env, found, raised))
    ensures Continues(t, AfterPaddle(t, e, env, found, raised), w)
  {
    var n := AfterPaddle(t, e, env, found, raised);
    StepFrame(t, PaddleDelivery(e, env, found, raised));
    var begun := BeginPaddle(t, e);
    if begun.log[PaddleKey(e)].processingStatus == Processed
       || begun.log[PaddleKey(e)].processingStatus == DuplicateIgnored
       || raised || e.eventType == Unknown || found.None? {
      PlainContinues(t, n, [], w);
    } else {
      var v := found.value;
      var row := t.subscriptions[v];
      if Idempotency.IsStale(e.occurredAt, row.updatedAt, None) {
        PlainContinues(t, n, [StaleEntry(v, Paddle, e.eventType)], w);
      } else {
        ExtensionContinues(t, n, v, Paddle, PaddleEntries(v, row, UpdatedPaddleRow(row, e, env), e, env), w);
      }
    }
  }

  lemma PreparationContinues(t: Tables, v: WorkspaceId, expected: string, apply: bool, env: Env, w: WorkspaceId)
    ensures Continues(t, Prepare(t, v, expected, apply, env).0, w)
  {
    var (n, outcome) := Prepare(t, v, expected, apply, env);
    if outcome != Prepared || v != w {
      PlainContinues(t, n, n.audit[|t.audit|..], w);
    } else {
      var entry := PreparationEntry(v, t.subscriptions[v]);
      assert n.audit[|t.audit|..] == [entry];
      assert [entry][1..] == [];
      assert CarriesStatus(entry, w);
      assert StatusEntries([entry], w) == [entry];
    }
  }

  predicate IsReconciliation(s: Step) {
    s.DodoReconcile? || s.PaddleReconcile?
  }

  /** Before it runs: a reconciliation that will go through for `w` and finds another status
      at the provider than the row has. Its audit entry is of another kind. */
  predicate ChangesStatusSilently(t: Tables, s: Step, w: WorkspaceId) {
    && w in t.subscriptions
    && var row := t.subscriptions[w];
       match s
       case DodoReconcile(v, id, fetch, live, apply, env) =>
         && v == w && GoesThrough(t, w, id, fetch, live, apply, env) && row.status != Active
       case PaddleReconcile(v, snapshot, _, _) =>
         && v == w && snapshot.Some?
         && row.provider == Paddle && Truthy(row.subscriptionReference)
         && !(Truthy(row.customerReference) && snapshot.value.customerReference != ""
              && row.customerReference != Some(snapshot.value.customerReference))
         && row.status != Entitlements.NormalizePaddleStatus(snapshot.value.status)
       case _ => false
  }

  lemma DodoReconcileChangesStatusExactly(t: Tables, s: Step, w: WorkspaceId)
    requires s.DodoReconcile? && w in t.subscriptions
    ensures w in Next(t, s).subscriptions
    ensures Next(t, s).subscriptions[w].status != t.subscriptions[w].status <==> ChangesStatusSilently(t, s, w)
  {
    if s.workspace == w && Verify(t, w, s.subscriptionId, s.fetch, s.live, s.env.settings).Success? {
      assert s.fetch(s.subscriptionId).data.value.status == "active";
    }
  }

  lemma PaddleReconcileChangesStatusExactly(t: Tables, s: Step, w: WorkspaceId)
    requires s.PaddleReconcile? && w in t.subscriptions
    ensures w in Next(t, s).subscriptions
    ensures Next(t, s).subscriptions[w].status != t.subscriptions[w].status <==> ChangesStatusSilently(t, s, w)
  {
  }

  /** Such a reconciliation: a canceled Dodo row is replaced by an active subscription. */
  lemma DodoReconcileBreaksTheTrail() returns (t: Tables, s: Step)
    ensures s.DodoReconcile? && 1 in t.subscriptions
    ensures ChangesStatusSilently(t, s, 1) && !Continues(t, Next(t, s), 1)
  {
    var row := Subscription(Dodo, None, None, Pro, Month, Canceled, 0, 0, None, None, false, None, NoEvent, 0, 5);
    t := Tables({1}, map[1 := row], map[], []);
    var settings := Settings("dodo", TestMode, true, Some("pro"), Some("team"), Some("seat"), None, 7);
    var fetch := (id: string) => Body(Some(DodoSubscription(id, "cus", "active", "pro", None, [], None, None, false)));
    s := DodoReconcile(1, "new", fetch, false, true, Env(9, settings));
    assert Verify(t, 1, "new", fetch, false, settings).Success? by {
      assert fetch("new").data.value.status == "active";
      assert CheckExisting(row, fetch) == None;
      assert !AttachedToAnother(t.subscriptions, 1, "new");
    }
    StepContinuesExactly(t, s, 1);
  }

  /** And another: reconciliation finds a Paddle row past due. */
  lemma PaddleReconcileBreaksTheTrail() returns (t: Tables, s: Step)
    ensures s.PaddleReconcile? && 1 in t.subscriptions
    ensures ChangesStatusSilently(t, s, 1) && !Continues(t, Next(t, s), 1)
  {
    var row := Subscription(Paddle, None, Some("sub"), Team, Month, Active, 20, 0, None, None, false, None,
                            NoEvent, 0, 5);
    t := Tables({1}, map[1 := row], map[], []);
    var settings := Settings("paddle", TestMode, true, None, None, None, None, 7);
    s := PaddleReconcile(1, Some(PaddleSnapshot("cus", "past_due", 20, None, None, false)), 5, Env(9, settings));
    StepContinuesExactly(t, s, 1);
  }

  lemma ReconciliationAddsNoStatus(t: Tables, s: Step, w: WorkspaceId)
    requires IsReconciliation(s)
    ensures t.audit <= Next(t, s).audit
    ensures StatusEntries(Next(t, s).audit[|t.audit|..], w) == []
  {
    var plain := Next(t, s).audit[|t.audit|..];
    assert forall i :: 0 <= i < |plain| ==> plain[i].eventType != SubscriptionChanged;
    NoStatusEntries(plain, w);
  }

  /** A step continues the trail exactly when it is not such a reconciliation. */
  lemma StepContinuesExactly(t: Tables, s: Step, w: WorkspaceId)
    requires Possible(t, s)
    ensures Continues(t, Next(t, s), w) <==> !ChangesStatusSilently(t, s, w)
  {
    match s
    case DodoDelivery(e, env, found, raised) => DodoDeliveryContinues(t, e, env, found, raised, w);
    case PaddleDelivery(e, env, found, raised) => PaddleDeliveryContinues(t, e, env, found, raised, w);
    case PreparePilot(v, expected, apply, env) => PreparationContinues(t, v, expected, apply, env, w);
    case AddWorkspace(v) => PlainContinues(t, Next(t, s), [], w);
    case _ =>
      ReconciliationAddsNoStatus(t, s, w);
      if w in t.subscriptions {
        if s.DodoReconcile? {
          DodoReconcileChangesStatusExactly(t, s, w);
        } else {
          PaddleReconcileChangesStatusExactly(t, s, w);
        }
      }
  }

  predicate StatusChangesAreAudited(t: Tables, steps: seq<Step>, w: WorkspaceId)
    requires ValidRun(t, steps)
    decreases |steps|
  {
    steps == [] || (!ChangesStatusSilently(t, steps[0], w) && StatusChangesAreAudited(Next(t, steps[0]), steps[1..], w))
  }

  lemma ContinuesCompose(t: Tables, n: Tables, last: Tables, w: WorkspaceId)
    requires w in t.subscriptions && Continues(t, n, w) && Continues(n, last, w)
    ensures Continues(t, last, w)
  {
    var here, rest := n.audit[|t.audit|..], last.audit[|n.audit|..];
    assert last.audit[|t.audit|..] == here + rest;
    StatusEntriesConcat(here, rest, w);
    ChainConcat(StatusEntries(here, w), StatusEntries(rest, w), w,
                t.subscriptions[w].status, n.subscriptions[w].status, last.subscriptions[w].status);
  }

  /** From the moment a workspace has a row, the status entries a run adds to the log lead,
      each starting where the previous one ended, from its status then to its status now. */
  lemma {:induction false} AuditRetellsStatus(t: Tables, steps: seq<Step>, w: WorkspaceId)
    requires ValidRun(t, steps) && w in t.subscriptions
    requires StatusChangesAreAudited(t, steps, w)
    ensures t.audit <= Run(t, steps).audit && w in Run(t, steps).subscriptions
    ensures Chain(StatusEntries(Run(t, steps).audit[|t.audit|..], w), w,
                  t.subscriptions[w].status, Run(t, steps).subscriptions[w].status)
    decreases |steps|
  {
    if steps == [] {
      PlainContinues(t, t, [], w);
    } else {
      var n := Next(t, steps[0]);
      StepContinuesExactly(t, steps[0], w);
      AuditRetellsStatus(n, steps[1..], w);
      ContinuesCompose(t, n, Run(n, steps[1..]), w);
    }
  }

  /** Up to and including the step that creates its row a workspace has no status entries:
      the chain starts at the creation status. */
  lemma {:induction false} NoStatusUpToCreation(t: Tables, steps: seq<Step>, s: Step, w: WorkspaceId)
    requires ValidRun(t, steps) && Possible(Run(t, steps), s)
    requires w !in t.subscriptions && w !in Run(t, steps).subscriptions
    requires StatusEntries(t.audit, w) == []
    ensures StatusEntries(Next(Run(t, steps), s).audit, w) == []
    decreases |steps|
  {
    var first := if steps == [] then s else steps[0];
    var n := Next(t, first);
    StepContinuesExactly(t, first, w);
    assert n.audit == t.audit + n.audit[|t.audit|..];
    StatusEntriesConcat(t.audit, n.audit[|t.audit|..], w);
    if steps != [] {
      if w in n.subscriptions {
        RowHistory.RowsPersist(n, steps[1..], w);
        assert false;
      }
      NoStatusUpToCreation(n, steps[1..], s, w);
    }
  }

  /** The whole log of a workspace is one chain: from the status its row was created with,
      by whichever step, to the status it has now. */
  lemma WholeTrailIsOneChain(t: Tables, before: seq<Step>, creation: Step, after: seq<Step>, w: WorkspaceId)
    requires ValidRun(t, before) && Possible(Run(t, before), creation)
    requires w !in t.subscriptions && w !in Run(t, before).subscriptions && StatusEntries(t.audit, w) == []
    requires w in Next(Run(t, before), creation).subscriptions
    requires ValidRun(Next(Run(t, before), creation), after)
    requires StatusChangesAreAudited(Next(Run(t, before), creation), after, w)
    ensures var created := Next(Run(t, before), creation);
            var last := Run(created, after);
            && w in last.subscriptions
            && Chain(StatusEntries(last.audit, w), w, created.subscriptions[w].status, last.subscriptions[w].status)
  {
    var created := Next(Run(t, before), creation);
    var last := Run(created, after);
    NoStatusUpToCreation(t, before, creation, w);
    AuditRetellsStatus(created, after, w);
    var added := last.audit[|created.audit|..];
    assert last.audit == created.audit + added;
    StatusEntriesConcat(created.audit, added, w);
    assert StatusEntries(last.audit, w) == StatusEntries(added, w);
  }
}
