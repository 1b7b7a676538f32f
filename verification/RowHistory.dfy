/** What every run keeps about a workspace's row: its provider, the meaning of its
    version, and where it came from. */
module RowHistory {
  import opened BillingTypes
  import opened DodoEvents
  import opened DodoProcessor
  import opened Runs
  import Routing
  import Entitlements

  lemma {:induction false} PrefixIsValid(t: Tables, steps: seq<Step>, i: nat)
    requires ValidRun(t, steps) && i <= |steps|
    ensures ValidRun(t, steps[..i]) && ValidRun(Run(t, steps[..i]), steps[i..])
    ensures Run(t, steps) == Run(Run(t, steps[..i]), steps[i..])
  {
    assert steps[..i] + steps[i..] == steps;
    RunConcat(t, steps[..i], steps[i..]);
  }

  /** The database after the first `i` steps. */
  function StateAt(t: Tables, steps: seq<Step>, i: nat): Tables
    requires ValidRun(t, steps) && i <= |steps|
  {
    PrefixIsValid(t, steps, i);
    Run(t, steps[..i])
  }

  /** One step on, the state is the next state. */
  lemma {:induction false} StateAfterOne(t: Tables, steps: seq<Step>, i: nat)
    requires ValidRun(t, steps) && i < |steps|
    ensures Possible(StateAt(t, steps, i), steps[i])
    ensures StateAt(t, steps, i + 1) == Next(StateAt(t, steps, i), steps[i])
  {
    PrefixIsValid(t, steps, i);
    PrefixIsValid(t, steps, i + 1);
    assert steps[..i + 1] == steps[..i] + [steps[i]];
    RunConcat(t, steps[..i], [steps[i]]);
    assert Run(StateAt(t, steps, i), [steps[i]]) == Next(StateAt(t, steps, i), steps[i]);
  }

  lemma StateAfterFirst(t: Tables, steps: seq<Step>, i: nat)
    requires ValidRun(t, steps) && steps != [] && i <= |steps| - 1
    ensures StateAt(t, steps, i + 1) == StateAt(Next(t, steps[0]), steps[1..], i)
  {
    PrefixIsValid(t, steps, i + 1);
    assert steps[..i + 1][1..] == steps[1..][..i];
  }

  /** A row is never deleted nor moved to another provider, its version never falls, and a
      version that did not rise means that no field changed. */
  lemma {:induction false} RowsPersist(t: Tables, steps: seq<Step>, w: WorkspaceId)
    requires ValidRun(t, steps) && w in t.subscriptions
    ensures w in Run(t, steps).subscriptions
    ensures var row, last := t.subscriptions[w], Run(t, steps).subscriptions[w];
            && last.provider == row.provider
            && row.version <= last.version <= row.version + |steps|
            && (last.version == row.version ==> last == row)
    decreases |steps|
  {
    if steps != [] {
      StepFrame(t, steps[0]);
      assert RowAt(Next(t, steps[0]), w).Some?;
      RowsPersist(Next(t, steps[0]), steps[1..], w);
    }
  }

  /** Two points of a run at which a workspace's row has the same version have the same row. */
  lemma VersionIdentifiesContent(t: Tables, steps: seq<Step>, i: nat, j: nat, w: WorkspaceId)
    requires ValidRun(t, steps) && i <= j <= |steps|
    requires w in StateAt(t, steps, i).subscriptions
    ensures w in StateAt(t, steps, j).subscriptions
    ensures StateAt(t, steps, i).subscriptions[w].version == StateAt(t, steps, j).subscriptions[w].version
            ==> StateAt(t, steps, i).subscriptions[w] == StateAt(t, steps, j).subscriptions[w]
  {
    PrefixIsValid(t, steps, j);
    assert steps[..j][..i] == steps[..i];
    PrefixIsValid(t, steps[..j], i);
    RowsPersist(StateAt(t, steps, i), steps[i..j], w);
    assert steps[..j][i..] == steps[i..j];
  }

  /** From the moment a workspace has a row, no run and no change of settings changes the
      provider its subscription is managed by, nor the one it is reconciled with. */
  lemma ManagementProviderIsStable(t: Tables, steps: seq<Step>, w: WorkspaceId, before: Settings, after: Settings)
    requires ValidRun(t, steps) && w in t.subscriptions
    ensures Routing.ProviderForManagement(Run(t, steps), after, w) == Routing.ProviderForManagement(t, before, w)
    ensures Routing.ProviderForReconciliation(Run(t, steps), w) == Some(t.subscriptions[w].provider)
  {
    RowsPersist(t, steps, w);
  }

  // ----- Where rows come from -----

  /** A delivered lifecycle event naming the workspace, with a plan and a status. */
  predicate NamesWorkspace(s: Step, w: WorkspaceId) {
    && s.DodoDelivery? && !s.raised
    && IsLifecycle(s.event.eventType)
    && s.event.workspaceHint == Some(w) && s.event.planHint.Some? && Truthy(s.event.subscriptionStatus)
  }

  predicate ReconcilesWorkspace(s: Step, w: WorkspaceId) {
    s.DodoReconcile? && s.workspace == w && s.apply
  }

  lemma OnlyTheseStepsCreate(t: Tables, s: Step, w: WorkspaceId)
    requires Possible(t, s) && w !in t.subscriptions && w in Next(t, s).subscriptions
    ensures NamesWorkspace(s, w) || ReconcilesWorkspace(s, w)
    ensures w in t.workspaces && Next(t, s).subscriptions[w].provider == Dodo
  {
    StepFrame(t, s);
    assert RowAt(t, w).None? && RowAt(Next(t, s), w).Some?;
  }

  /** The step at which a row appears. */
  lemma {:induction false} Appearance(t: Tables, steps: seq<Step>, w: WorkspaceId) returns (i: nat)
    requires ValidRun(t, steps)
    requires w !in t.subscriptions && w in Run(t, steps).subscriptions
    ensures i < |steps| && w !in StateAt(t, steps, i).subscriptions && w in StateAt(t, steps, i + 1).subscriptions
    decreases |steps|
  {
    var n := Next(t, steps[0]);
    if w in n.subscriptions {
      i := 0;
      StateAfterOne(t, steps, 0);
    } else {
      var k := Appearance(n, steps[1..], w);
      i := k + 1;
      StateAfterFirst(t, steps, k);
      StateAfterFirst(t, steps, k + 1);
    }
  }

  /** Every row that appears in a run belongs to an existing workspace and to Dodo, and an
      earlier step of the run accounts for it: a delivered lifecycle event naming the
      workspace, or an applied operator reconciliation of it. */
  lemma PaidAccessHasProvenance(t: Tables, steps: seq<Step>, w: WorkspaceId) returns (i: nat)
    requires ValidRun(t, steps)
    requires w !in t.subscriptions && w in Run(t, steps).subscriptions
    ensures i < |steps| && (NamesWorkspace(steps[i], w) || ReconcilesWorkspace(steps[i], w))
    ensures w !in StateAt(t, steps, i).subscriptions && w in StateAt(t, steps, i + 1).subscriptions
    ensures w in Run(t, steps).workspaces && Run(t, steps).subscriptions[w].provider == Dodo
  {
    i := Appearance(t, steps, w);
    StateAfterOne(t, steps, i);
    OnlyTheseStepsCreate(StateAt(t, steps, i), steps[i], w);
    PrefixIsValid(t, steps, i);
    PrefixIsValid(t, steps, i + 1);
    WorkspacesPersist(StateAt(t, steps, i), steps[i..]);
    RowsPersist(StateAt(t, steps, i + 1), steps[i + 1..], w);
  }

  lemma {:induction false} WorkspacesPersist(t: Tables, steps: seq<Step>)
    requires ValidRun(t, steps)
    ensures t.workspaces <= Run(t, steps).workspaces
    decreases |steps|
  {
    if steps != [] {
      StepFrame(t, steps[0]);
      WorkspacesPersist(Next(t, steps[0]), steps[1..]);
    }
  }

  /** A workspace without a row stays without one, and so without paid access, through any
      run that neither names it in a lifecycle event nor reconciles it: payment, dunning
      and Paddle traffic, of any amount, never grants access. */
  lemma PaymentsAloneGrantNothing(t: Tables, steps: seq<Step>, w: WorkspaceId)
    requires ValidRun(t, steps) && w !in t.subscriptions
    requires forall i :: 0 <= i < |steps| ==> !NamesWorkspace(steps[i], w) && !ReconcilesWorkspace(steps[i], w)
    ensures w !in Run(t, steps).subscriptions
  {
    if w in Run(t, steps).subscriptions {
      var i := PaidAccessHasProvenance(t, steps, w);
    }
  }

  /** With a row the guarantee is narrower: one successful payment turns an incomplete row
      into one with paid access. */
  lemma PaymentRecoversAnExistingRow(row: Subscription, e: DodoEvent, env: Env)
    requires e.eventType == TransactionCompleted && !IsExpiry(e)
    ensures Entitlements.GrantsPaidAccess(UpdatedRow(row, e, env).status)
            <==> Entitlements.GrantsPaidAccess(row.status) || row.status == Incomplete
  {
  }
}
