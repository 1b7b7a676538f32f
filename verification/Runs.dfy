/** Runs of the billing system: any sequence of deliveries, operator commands and
    reconciliations, in any order, with failing attempts and repeated deliveries. */
module Runs {
  import opened BillingTypes
  import opened Lookup
  import opened DodoEvents
  import opened DodoProcessor
  import opened DeliveryShape
  import opened PaddleProcessor
  import opened DodoOperator

  /** One committed transaction. `found` is the answer the row lookup happened to give. */
  datatype Step =
    | DodoDelivery(event: DodoEvent, env: Env, found: Option<WorkspaceId>, raised: bool)
    | PaddleDelivery(paddle: PaddleEvent, env: Env, found: Option<WorkspaceId>, raised: bool)
    | DodoReconcile(workspace: WorkspaceId, subscriptionId: string, fetch: ProviderOracle, live: bool, apply: bool,
                    env: Env)
    | PaddleReconcile(workspace: WorkspaceId, snapshot: Option<PaddleSnapshot>, members: nat, env: Env)
    | PreparePilot(workspace: WorkspaceId, expected: string, apply: bool, env: Env)
    | AddWorkspace(workspace: WorkspaceId)

  /** The step is possible: its lookup answered with a row the queries may return. */
  predicate Possible(t: Tables, s: Step) {
    match s
    case DodoDelivery(e, _, found, _) =>
      IsFirstMatch(t.subscriptions, Dodo, e.subscriptionReference, e.customerReference, found)
    case PaddleDelivery(e, _, found, _) =>
      IsFirstMatch(t.subscriptions, Paddle, e.subscriptionReference, e.customerReference, found)
    case _ => true
  }

  function Next(t: Tables, s: Step): Tables
    requires Possible(t, s)
  {
    match s
    case DodoDelivery(e, env, found, raised) => After(t, e, env, found, raised)
    case PaddleDelivery(e, env, found, raised) => AfterPaddle(t, e, env, found, raised)
    case DodoReconcile(w, id, fetch, live, apply, env) => Reconcile(t, w, id, fetch, live, apply, env).0
    case PaddleReconcile(w, snapshot, members, env) => ReconcilePaddle(t, w, snapshot, members, env).0
    case PreparePilot(w, expected, apply, env) => Prepare(t, w, expected, apply, env).0
    case AddWorkspace(w) => t.(workspaces := t.workspaces + {w})
  }

  predicate ValidRun(t: Tables, steps: seq<Step>)
    decreases |steps|
  {
    steps == [] || (Possible(t, steps[0]) && ValidRun(Next(t, steps[0]), steps[1..]))
  }

  function Run(t: Tables, steps: seq<Step>): Tables
    requires ValidRun(t, steps)
    decreases |steps|
  {
    if steps == [] then t else Run(Next(t, steps[0]), steps[1..])
  }

  lemma {:induction false} RunConcat(t: Tables, a: seq<Step>, b: seq<Step>)
    ensures ValidRun(t, a + b) <==> ValidRun(t, a) && ValidRun(Run(t, a), b)
    ensures ValidRun(t, a + b) ==> Run(t, a + b) == Run(Run(t, a), b)
    decreases |a|
  {
    if a == [] {
      assert a + b == b;
    } else {
      assert (a + b)[1..] == a[1..] + b;
      if Possible(t, a[0]) {
        RunConcat(Next(t, a[0]), a[1..], b);
      }
    }
  }

  const EMPTY := Tables({}, map[], map[], [])

  // ----- The shape of a step -----

  /** The workspace whose row a step may write. */
  function Target(s: Step): Option<WorkspaceId> {
    match s
    case DodoDelivery(e, _, found, _) => if found.Some? then found else e.workspaceHint
    case PaddleDelivery(_, _, found, _) => found
    case DodoReconcile(w, _, _, _, _, _) => Some(w)
    case PaddleReconcile(w, _, _, _) => Some(w)
    case PreparePilot(w, _, _, _) => Some(w)
    case AddWorkspace(_) => None
  }

  /** The provider whose rows a step may write. */
  function Owner(s: Step): Provider {
    if s.PaddleDelivery? || s.PaddleReconcile? then Paddle else Dodo
  }

  function RowAt(t: Tables, w: WorkspaceId): Option<Subscription> {
    if w in t.subscriptions then Some(t.subscriptions[w]) else None
  }

  /** From `t` to `n` at most the row of `target` changed, a row of `owner`'s; nothing was
      deleted, no row changed its provider, the audit log only grew, and a changed row has
      a version higher by one. */
  ghost predicate Frame(t: Tables, n: Tables, target: Option<WorkspaceId>, owner: Provider) {
    && t.workspaces <= n.workspaces
    && t.audit <= n.audit
    && (forall v: WorkspaceId :: Some(v) != target ==> RowAt(n, v) == RowAt(t, v))
    && (target.Some? ==> RowFrame(t, n, target.value, owner))
  }

  predicate RowFrame(t: Tables, n: Tables, w: WorkspaceId, owner: Provider) {
    if w in t.subscriptions then
      && w in n.subscriptions
      && n.subscriptions[w].provider == t.subscriptions[w].provider
      && (n.subscriptions[w] == t.subscriptions[w]
          || (n.subscriptions[w].version == t.subscriptions[w].version + 1 && t.subscriptions[w].provider == owner))
    else
      w in n.subscriptions ==>
        w in t.workspaces && n.subscriptions[w].provider == Dodo == owner && n.subscriptions[w].version == 0
  }

  lemma DodoDeliveryFrame(t: Tables, e: DodoEvent, env: Env, found: Option<WorkspaceId>, raised: bool)
    requires IsFirstMatch(t.subscriptions, Dodo, e.subscriptionReference, e.customerReference, found)
    ensures Frame(t, After(t, e, env, found, raised), if found.Some? then found else e.workspaceHint, Dodo)
  {
    DeliverySubscriptions(t, e, env, found, raised);
    DeliveryLogRow(t, e, env, found, raised);
    DeliveryAudit(t, e, env, found, raised);
  }

  lemma PaddleDeliveryFrame(t: Tables, e: PaddleEvent, env: Env, found: Option<WorkspaceId>, raised: bool)
    requires IsFirstMatch(t.subscriptions, Paddle, e.subscriptionReference, e.customerReference, found)
    ensures Frame(t, AfterPaddle(t, e, env, found, raised), found, Paddle)
  {
  }

  /** Every step of the system has this shape. */
  lemma StepFrame(t: Tables, s: Step)
    requires Possible(t, s)
    ensures Frame(t, Next(t, s), Target(s), Owner(s))
  {
    match s
    case DodoDelivery(e, env, found, raised) => DodoDeliveryFrame(t, e, env, found, raised);
    case PaddleDelivery(e, env, found, raised) => PaddleDeliveryFrame(t, e, env, found, raised);
    case _ =>
  }
}
