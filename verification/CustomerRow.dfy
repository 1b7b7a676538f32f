/** The row of one customer, computed from the customer's own deliveries alone: whatever the
    order, however many attempts fail and however often events are delivered again, and
    whatever the traffic of everybody else. */
module CustomerRow {
  import opened BillingTypes
  import opened Lookup
  import opened Idempotency
  import opened DodoEvents
  import opened DodoProcessor
  import opened DeliveryShape
  import opened DodoOperator
  import opened Runs
  import opened Delivery

  /** One workspace, its customer, the events the provider has for it, and one of them. */
  datatype Campaign = Campaign(workspace: WorkspaceId, customer: string, events: set<DodoEvent>, newest: DodoEvent)

  /** An event of the customer, of any type; a lifecycle event names no other workspace. */
  predicate Ours(c: Campaign, e: DodoEvent) {
    && e.customerReference == Some(c.customer)
    && (IsLifecycle(e.eventType) && e.workspaceHint.Some? ==> e.workspaceHint.value == c.workspace)
  }

  ghost predicate IsFamily(c: Campaign) {
    && c.customer != ""
    && (forall e :: e in c.events ==> Ours(c, e))
    && (forall d, e :: d in c.events && e in c.events && d.externalEventId == e.externalEventId ==> d == e)
  }

  predicate OurReference(c: Campaign, r: Option<string>) {
    Truthy(r) && exists e :: e in c.events && e.subscriptionReference == r
  }

  predicate OurId(c: Campaign, id: string) {
    exists e :: e in c.events && e.externalEventId == id
  }

  predicate IsOwn(c: Campaign, s: Step) {
    s.DodoDelivery? && s.event in c.events
  }

  /** A step that concerns other workspaces and other customers only. */
  predicate Foreign(c: Campaign, s: Step) {
    match s
    case DodoDelivery(e, _, _, _) =>
      && e.workspaceHint != Some(c.workspace) && e.customerReference != Some(c.customer)
      && !OurReference(c, e.subscriptionReference) && !OurId(c, e.externalEventId)
    case DodoReconcile(v, id, fetch, _, _, _) =>
      && v != c.workspace
      && (fetch(id).Body? && fetch(id).data.Some? ==>
            && fetch(id).data.value.customerId != c.customer
            && !OurReference(c, NonEmpty(fetch(id).data.value.subscriptionId)))
    case PreparePilot(v, _, _, _) => v != c.workspace
    case _ => true
  }

  predicate IsTraffic(c: Campaign, steps: seq<Step>) {
    forall i :: 0 <= i < |steps| ==> IsOwn(c, steps[i]) || Foreign(c, steps[i])
  }

  // ----- The customer's own deliveries -----

  /** One delivery of an event; `raised` says that its attempt raises. */
  datatype Attempt = Attempt(event: DodoEvent, env: Env, raised: bool)

  function OwnAttempts(c: Campaign, steps: seq<Step>): seq<Attempt> {
    if steps == [] then []
    else
      (if IsOwn(c, steps[0]) then [Attempt(steps[0].event, steps[0].env, steps[0].raised)] else [])
      + OwnAttempts(c, steps[1..])
  }

  /** The events that are done, those of them that were delivered again, and the row. */
  datatype Progress = Progress(done: set<DodoEvent>, marked: set<DodoEvent>, row: Option<Subscription>)

  const FRESH := Progress({}, {}, None)

  /** A done event that later ones are compared with. */
  predicate Counts(p: Progress, d: DodoEvent) {
    d in p.done && d !in p.marked && d.occurredAt.Some?
  }

  /** The event is older than one that counts; if none does, older than the row's last write. */
  predicate Late(p: Progress, e: DodoEvent)
    requires p.row.Some?
  {
    && e.occurredAt.Some?
    && if exists d :: d in p.done && Counts(p, d)
       then exists d :: d in p.done && Counts(p, d) && e.occurredAt.value < d.occurredAt.value
       else e.occurredAt.value < p.row.value.updatedAt
  }

  predicate MayCreate(e: DodoEvent) {
    IsLifecycle(e.eventType) && e.workspaceHint.Some? && e.planHint.Some? && Truthy(e.subscriptionStatus)
  }

  /** What the first delivery of an event that is not a duplicate makes of the row. */
  function RowAfter(p: Progress, e: DodoEvent, env: Env): Option<Subscription> {
    if e.eventType == Unknown then p.row
    else match p.row
      case None => if MayCreate(e) then Some(CreatedRow(e, env)) else None
      case Some(row) => if Late(p, e) then p.row else Some(UpdatedRow(row, e, env))
  }

  /** A lifecycle event that finds no row and may not create one stays to be delivered. */
  predicate IsHomeless(p: Progress, e: DodoEvent) {
    p.row.None? && IsLifecycle(e.eventType) && !MayCreate(e)
  }

  function Advanced(p: Progress, a: Attempt): Progress {
    if a.event in p.done then p.(marked := p.marked + {a.event})
    else if a.raised || IsHomeless(p, a.event) then p
    else Progress(p.done + {a.event}, p.marked, RowAfter(p, a.event, a.env))
  }

  function Played(p: Progress, attempts: seq<Attempt>): Progress
    decreases |attempts|
  {
    if attempts == [] then p else Played(Advanced(p, attempts[0]), attempts[1..])
  }

  lemma {:induction false} PlayedConcat(p: Progress, a: seq<Attempt>, b: seq<Attempt>)
    ensures Played(p, a + b) == Played(Played(p, a), b)
    decreases |a|
  {
    if a == [] {
      assert a + b == b;
    } else {
      assert (a + b)[1..] == a[1..] + b;
      PlayedConcat(Advanced(p, a[0]), a[1..], b);
    }
  }

  lemma PlayedOneMore(p: Progress, attempts: seq<Attempt>, a: Attempt)
    ensures Played(p, attempts + [a]) == Advanced(Played(p, attempts), a)
  {
    PlayedConcat(p, attempts, [a]);
    assert [a][1..] == [] && Played(Played(p, attempts), [a]) == Played(Advanced(Played(p, attempts), a), []);
  }

  // ----- What the database holds of them -----

  ghost predicate OthersAreForeign(subs: map<WorkspaceId, Subscription>, c: Campaign) {
    forall v :: v in subs && v != c.workspace && subs[v].provider == Dodo ==>
                  subs[v].customerReference != Some(c.customer) && !OurReference(c, subs[v].subscriptionReference)
  }

  predicate RowIsOurs(c: Campaign, row: Subscription) {
    && row.provider == Dodo && row.customerReference == Some(c.customer)
    && (Truthy(row.subscriptionReference) ==> OurReference(c, row.subscriptionReference))
  }

  predicate Touches(c: Campaign, r: WebhookRow) {
    r.customerReference == Some(c.customer) || OurReference(c, r.subscriptionReference)
  }

  predicate EventIsLogged(t: Tables, e: DodoEvent, p: Progress) {
    && (Key(e) in t.log ==> Recorded(t.log[Key(e)]) == FreshRow(e))
    && (SettledIn(t, Key(e)) <==> e in p.done)
    && (e in p.done ==> (t.log[Key(e)].processingStatus == Processed <==> e !in p.marked))
  }

  ghost predicate LogIsOurs(t: Tables, c: Campaign, p: Progress) {
    && (forall k :: k in t.log && k.provider == Dodo && Touches(c, t.log[k]) ==> OurId(c, k.externalEventId))
    && (forall e :: e in c.events ==> EventIsLogged(t, e, p))
  }

  ghost predicate Holds(t: Tables, c: Campaign, p: Progress) {
    && c.workspace in t.workspaces
    && p.marked <= p.done <= c.events
    && RowAt(t, c.workspace) == p.row
    && (p.row.Some? ==> RowIsOurs(c, p.row.value))
    && OthersAreForeign(t.subscriptions, c)
    && LogIsOurs(t, c, p)
  }

  /** A database in which the customer and its events are still unknown. */
  ghost predicate Start(t: Tables, c: Campaign) {
    && c.workspace in t.workspaces && c.workspace !in t.subscriptions
    && OthersAreForeign(t.subscriptions, c)
    && (forall k :: k in t.log && k.provider == Dodo ==> !OurId(c, k.externalEventId) && !Touches(c, t.log[k]))
  }

  lemma StartHolds(t: Tables, c: Campaign)
    requires IsFamily(c) && Start(t, c)
    ensures Holds(t, c, FRESH)
  {
  }

  // ----- Foreign steps -----

  lemma ForeignKeepsLog(t: Tables, s: Step, c: Campaign, p: Progress)
    requires LogIsOurs(t, c, p) && Possible(t, s) && Foreign(c, s) && !IsOwn(c, s)
    ensures LogIsOurs(Next(t, s), c, p)
  {
    var n := Next(t, s);
    forall k | k in n.log && k.provider == Dodo && Touches(c, n.log[k]) ensures OurId(c, k.externalEventId) {
      StepLogFrame(t, s, k);
      if k in t.log {
        assert Recorded(n.log[k]) == Recorded(t.log[k]);
        assert Touches(c, Recorded(n.log[k]));
        assert Touches(c, t.log[k]);
      } else {
        ForeignRowDoesNotTouch(t, s, c, k);
      }
    }
    forall e | e in c.events ensures EventIsLogged(n, e, p) {
      assert EventIsLogged(t, e, p);
      StepLogFrame(t, s, Key(e));
      assert DeliveryKey(s) != Some(Key(e));
    }
  }

  lemma ForeignRowDoesNotTouch(t: Tables, s: Step, c: Campaign, k: EventKey)
    requires Possible(t, s) && Foreign(c, s)
    requires k !in t.log && k in Next(t, s).log && k.provider == Dodo
    ensures !Touches(c, Next(t, s).log[k])
  {
    StepLogFrame(t, s, k);
    DeliveryLogRow(t, s.event, s.env, s.found, s.raised);
  }

  /** A foreign delivery leaves only foreign references on the row it writes. */
  lemma ForeignDeliveryReferences(t: Tables, e: DodoEvent, env: Env, found: Option<WorkspaceId>, raised: bool,
                                  v: WorkspaceId)
    requires found.Some? ==> found.value in t.subscriptions
    requires v in After(t, e, env, found, raised).subscriptions
    ensures var row := After(t, e, env, found, raised).subscriptions[v];
            if v in t.subscriptions then
              && row.customerReference == t.subscriptions[v].customerReference
              && (row.subscriptionReference == t.subscriptions[v].subscriptionReference
                  || row.subscriptionReference == e.subscriptionReference)
            else row.customerReference == e.customerReference && row.subscriptionReference == e.subscriptionReference
  {
  }

  lemma ForeignReconcileReferences(t: Tables, c: Campaign, s: Step, v: WorkspaceId)
    requires s.DodoReconcile? && Foreign(c, s) && c.customer != ""
    requires v in Next(t, s).subscriptions && RowAt(Next(t, s), v) != RowAt(t, v)
    ensures var row := Next(t, s).subscriptions[v];
            && (row.customerReference == Some(c.customer)
                ==> v in t.subscriptions && t.subscriptions[v].provider == Dodo
                    && row.customerReference == t.subscriptions[v].customerReference)
            && !OurReference(c, row.subscriptionReference)
  {
  }

  lemma ForeignRowStaysForeign(t: Tables, s: Step, c: Campaign, v: WorkspaceId)
    requires c.customer != "" && OthersAreForeign(t.subscriptions, c)
    requires Possible(t, s) && Foreign(c, s) && v != c.workspace
    requires v in Next(t, s).subscriptions && Next(t, s).subscriptions[v].provider == Dodo
    ensures Next(t, s).subscriptions[v].customerReference != Some(c.customer)
    ensures !OurReference(c, Next(t, s).subscriptions[v].subscriptionReference)
  {
    StepFrame(t, s);
    if RowAt(Next(t, s), v) != RowAt(t, v) {
      match s
      case DodoDelivery(e, env, found, raised) => ForeignDeliveryReferences(t, e, env, found, raised, v);
      case DodoReconcile(_, _, _, _, _, _) => ForeignReconcileReferences(t, c, s, v);
      case _ =>
    }
  }

  lemma ForeignKeepsRows(t: Tables, s: Step, c: Campaign, row: Option<Subscription>)
    requires c.customer != "" && OthersAreForeign(t.subscriptions, c) && RowAt(t, c.workspace) == row
    requires row.Some? ==> RowIsOurs(c, row.value)
    requires Possible(t, s) && Foreign(c, s)
    ensures RowAt(Next(t, s), c.workspace) == row
    ensures OthersAreForeign(Next(t, s).subscriptions, c)
  {
    StepFrame(t, s);
    forall v | v in Next(t, s).subscriptions && v != c.workspace && Next(t, s).subscriptions[v].provider == Dodo
      ensures Next(t, s).subscriptions[v].customerReference != Some(c.customer)
      ensures !OurReference(c, Next(t, s).subscriptions[v].subscriptionReference)
    {
      ForeignRowStaysForeign(t, s, c, v);
    }
  }

  lemma ForeignKeeps(t: Tables, s: Step, c: Campaign, p: Progress)
    requires c.customer != "" && Holds(t, c, p)
    requires Possible(t, s) && Foreign(c, s) && !IsOwn(c, s)
    ensures Holds(Next(t, s), c, p)
  {
    ForeignKeepsLog(t, s, c, p);
    ForeignKeepsRows(t, s, c, p.row);
    StepFrame(t, s);
  }

  // ----- Own steps -----

  function Home(c: Campaign, p: Progress): Option<WorkspaceId> {
    if p.row.None? then None else Some(c.workspace)
  }

  /** The lookup of one of our events answers with our row, or with none before there is one. */
  lemma OwnLookup(t: Tables, c: Campaign, p: Progress, e: DodoEvent, found: Option<WorkspaceId>)
    requires IsFamily(c) && Holds(t, c, p) && e in c.events
    ensures IsFirstMatch(t.subscriptions, Dodo, e.subscriptionReference, e.customerReference, found)
            <==> found == Home(c, p)
  {
    assert Ours(c, e);
    assert Truthy(e.subscriptionReference) ==> OurReference(c, e.subscriptionReference);
    if p.row.Some? {
      assert RowAt(t, c.workspace) == Some(t.subscriptions[c.workspace]);
      assert HasCustomerReference(t.subscriptions[c.workspace], Dodo, e.customerReference);
    }
  }

  /** A row of the log the baseline of one of our events counts is that of an event that counts. */
  lemma BaselineRowCounts(t: Tables, c: Campaign, p: Progress, e: DodoEvent, k: EventKey) returns (d: DodoEvent)
    requires IsFamily(c) && Holds(t, c, p) && e in c.events && e !in p.done
    requires var log := Begin(t, e).log;
             k in log && IsBaselineRow(k, log[k], Dodo, e.subscriptionReference, e.customerReference, e.externalEventId)
    ensures d in p.done && Counts(p, d) && Begin(t, e).log[k].occurredAt == d.occurredAt
  {
    var r := t.log[k];
    assert Ours(c, e);
    assert Touches(c, r);
    d :| d in c.events && d.externalEventId == k.externalEventId;
    assert EventIsLogged(t, d, p);
    assert Key(d) == k && Recorded(r).occurredAt == d.occurredAt;
  }

  /** And every event that counts has such a row. */
  lemma CountedIsBaselineRow(t: Tables, c: Campaign, p: Progress, e: DodoEvent, d: DodoEvent)
    requires IsFamily(c) && Holds(t, c, p) && e in c.events && e !in p.done && d in p.done && Counts(p, d)
    ensures var log := Begin(t, e).log;
            && Key(d) in log && log[Key(d)].occurredAt == d.occurredAt
            && IsBaselineRow(Key(d), log[Key(d)], Dodo, e.subscriptionReference, e.customerReference, e.externalEventId)
  {
    assert Ours(c, e) && Ours(c, d) && EventIsLogged(t, d, p);
    assert Key(d) != Key(e);
    var r := t.log[Key(d)];
    assert r.occurredAt == Recorded(r).occurredAt && r.customerReference == Recorded(r).customerReference;
  }

  lemma OutdatedExactly(t: Tables, c: Campaign, p: Progress, e: DodoEvent)
    requires IsFamily(c) && Holds(t, c, p) && e in c.events && e !in p.done && p.row.Some?
    ensures Outdated(Begin(t, e), e, p.row.value) <==> Late(p, e)
  {
    var log := Begin(t, e).log;
    var m := LatestProcessed(log, Dodo, e.subscriptionReference, e.customerReference, e.externalEventId);
    forall d | d in p.done && Counts(p, d) ensures m.Some? && d.occurredAt.value <= m.value {
      CountedIsBaselineRow(t, c, p, e, d);
    }
    if m.Some? {
      var k :| k in log && log[k].occurredAt.Some? && log[k].occurredAt.value == m.value
               && IsBaselineRow(k, log[k], Dodo, e.subscriptionReference, e.customerReference, e.externalEventId);
      var d := BaselineRowCounts(t, c, p, e, k);
      assert d in p.done && Counts(p, d) && d.occurredAt.value == m.value;
    }
  }

  lemma OwnRowsAfter(t: Tables, c: Campaign, p: Progress, a: Attempt, subs: map<WorkspaceId, Subscription>)
    requires IsFamily(c) && Holds(t, c, p) && a.event in c.events
    requires subs == SubscriptionsAfter(t, a.event, a.env, Home(c, p), a.raised)
    ensures var row := Advanced(p, a).row;
            && subs == (if row.Some? then t.subscriptions[c.workspace := row.value] else t.subscriptions)
            && (row.Some? ==> RowIsOurs(c, row.value))
  {
    var e := a.event;
    assert Ours(c, e) && EventIsLogged(t, e, p);
    assert Truthy(e.subscriptionReference) ==> OurReference(c, e.subscriptionReference);
    assert p.row.Some? ==> t.subscriptions[c.workspace := p.row.value] == t.subscriptions;
    if p.row.None? {
      assert RowAt(t, c.workspace) == None;
      assert IsLifecycle(e.eventType) ==> (CanCreate(t, e) <==> MayCreate(e));
    } else if e !in p.done {
      OutdatedExactly(t, c, p, e);
    }
  }

  lemma OwnLogAfter(t: Tables, n: Tables, c: Campaign, p: Progress, a: Attempt)
    requires IsFamily(c) && Holds(t, c, p) && a.event in c.events
    requires n.log == t.log[Key(a.event) := LogRowAfter(t, a.event, Home(c, p), a.raised)]
    ensures LogIsOurs(n, c, Advanced(p, a))
  {
    var e := a.event;
    assert EventIsLogged(t, e, p) && Ours(c, e);
    forall k | k in n.log && k.provider == Dodo && Touches(c, n.log[k]) ensures OurId(c, k.externalEventId) {
      assert k != Key(e) ==> k in t.log && n.log[k] == t.log[k];
    }
    assert p.row.None? && IsLifecycle(e.eventType)
           ==> RowAt(t, c.workspace) == None && (CanCreate(t, e) <==> MayCreate(e));
    forall d | d in c.events ensures EventIsLogged(n, d, Advanced(p, a)) {
      assert EventIsLogged(t, d, p);
      assert d != e ==> Key(d) != Key(e);
    }
  }

  lemma OwnTablesAfter(t: Tables, n: Tables, c: Campaign, p: Progress, a: Attempt)
    requires IsFamily(c) && Holds(t, c, p) && a.event in c.events
    requires n.workspaces == t.workspaces
    requires n.subscriptions == SubscriptionsAfter(t, a.event, a.env, Home(c, p), a.raised)
    requires n.log == t.log[Key(a.event) := LogRowAfter(t, a.event, Home(c, p), a.raised)]
    ensures Holds(n, c, Advanced(p, a))
  {
    OwnRowsAfter(t, c, p, a, n.subscriptions);
    OwnLogAfter(t, n, c, p, a);
  }

  lemma OwnKeeps(t: Tables, s: Step, c: Campaign, p: Progress)
    requires IsFamily(c) && Holds(t, c, p) && Possible(t, s) && IsOwn(c, s)
    ensures Holds(Next(t, s), c, Advanced(p, Attempt(s.event, s.env, s.raised)))
  {
    OwnLookup(t, c, p, s.event, s.found);
    DeliverySubscriptions(t, s.event, s.env, s.found, s.raised);
    DeliveryLogRow(t, s.event, s.env, s.found, s.raised);
    OwnTablesAfter(t, Next(t, s), c, p, Attempt(s.event, s.env, s.raised));
  }

  // ----- The results -----

  lemma {:induction false} RunHolds(t: Tables, steps: seq<Step>, c: Campaign, p: Progress)
    requires IsFamily(c) && Holds(t, c, p)
    requires ValidRun(t, steps) && IsTraffic(c, steps)
    ensures Holds(Run(t, steps), c, Played(p, OwnAttempts(c, steps)))
    decreases |steps|
  {
    if steps != [] {
      var s, own := steps[0], OwnAttempts(c, steps[1..]);
      assert forall i :: 0 <= i < |steps| - 1 ==> steps[1..][i] == steps[i + 1];
      if IsOwn(c, s) {
        var a := Attempt(s.event, s.env, s.raised);
        OwnKeeps(t, s, c, p);
        assert OwnAttempts(c, steps) == [a] + own && ([a] + own)[1..] == own;
        RunHolds(Next(t, s), steps[1..], c, Advanced(p, a));
      } else {
        ForeignKeeps(t, s, c, p);
        assert OwnAttempts(c, steps) == own;
        RunHolds(Next(t, s), steps[1..], c, p);
      }
    }
  }

  /** After any traffic the workspace's row is the one its own deliveries play out to. */
  lemma RowIsPlayed(t: Tables, steps: seq<Step>, c: Campaign)
    requires IsFamily(c) && Start(t, c) && ValidRun(t, steps) && IsTraffic(c, steps)
    ensures RowAt(Run(t, steps), c.workspace) == Played(FRESH, OwnAttempts(c, steps)).row
  {
    StartHolds(t, c);
    RunHolds(t, steps, c, FRESH);
  }

  /** So two databases in which the same own deliveries arrive in the same order hold the same
      row, whatever else happens in either. */
  lemma RowDependsOnOwnDeliveriesOnly(t: Tables, steps: seq<Step>, u: Tables, others: seq<Step>, c: Campaign)
    requires IsFamily(c) && Start(t, c) && Start(u, c)
    requires ValidRun(t, steps) && IsTraffic(c, steps) && ValidRun(u, others) && IsTraffic(c, others)
    requires OwnAttempts(c, steps) == OwnAttempts(c, others)
    ensures RowAt(Run(t, steps), c.workspace) == RowAt(Run(u, others), c.workspace)
  {
    RowIsPlayed(t, steps, c);
    RowIsPlayed(u, others, c);
  }

  /** Every list of own deliveries can happen, from every such database. */
  lemma {:induction false} AttemptsCanHappen(t: Tables, c: Campaign, p: Progress, attempts: seq<Attempt>)
    returns (steps: seq<Step>)
    requires IsFamily(c) && Holds(t, c, p)
    requires forall i :: 0 <= i < |attempts| ==> attempts[i].event in c.events
    ensures ValidRun(t, steps) && IsTraffic(c, steps) && OwnAttempts(c, steps) == attempts
    decreases |attempts|
  {
    if attempts == [] {
      return [];
    }
    var a := attempts[0];
    var s := DodoDelivery(a.event, a.env, Home(c, p), a.raised);
    OwnLookup(t, c, p, a.event, Home(c, p));
    OwnKeeps(t, s, c, p);
    var tail := AttemptsCanHappen(Next(t, s), c, Advanced(p, a), attempts[1..]);
    steps := [s] + tail;
    assert steps[1..] == tail;
    assert attempts == [a] + attempts[1..];
  }

  /** The customer's own deliveries in a run of such traffic are the given ones. */
  ghost predicate Plays(c: Campaign, t: Tables, steps: seq<Step>, attempts: seq<Attempt>) {
    Start(t, c) && ValidRun(t, steps) && IsTraffic(c, steps) && OwnAttempts(c, steps) == attempts
  }

  lemma SomeRun(c: Campaign, attempts: seq<Attempt>) returns (t: Tables, steps: seq<Step>)
    requires IsFamily(c) && forall i :: 0 <= i < |attempts| ==> attempts[i].event in c.events
    ensures Plays(c, t, steps, attempts)
  {
    t := Tables({c.workspace}, map[], map[], []);
    StartHolds(t, c);
    steps := AttemptsCanHappen(t, c, FRESH, attempts);
  }
}
