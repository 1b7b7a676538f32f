/** Two deliveries of different events of one customer that overlap: both read the tables
    before either commits. No lock is taken and no version compared, so the second to commit
    overwrites, column by column, what it has changed. */
module Overlap {
  import opened BillingTypes
  import opened DodoEvents
  import opened DodoProcessor
  import opened DeliveryShape
  import opened Runs
  import opened CustomerRow
  import opened OrderIndependence

  /** The value of a column after an update that computed `mine` from `before` meets one that
      committed `theirs` in between: only a changed column is written. */
  function Kept<T(==)>(before: T, theirs: T, mine: T): T {
    if mine == before then theirs else mine
  }

  /** The row after both updates; the time of writing is set with any other column. */
  function Merged(row: Subscription, theirs: Subscription, mine: Subscription): Subscription {
    Subscription(
      Kept(row.provider, theirs.provider, mine.provider),
      Kept(row.customerReference, theirs.customerReference, mine.customerReference),
      Kept(row.subscriptionReference, theirs.subscriptionReference, mine.subscriptionReference),
      Kept(row.planId, theirs.planId, mine.planId),
      Kept(row.billingInterval, theirs.billingInterval, mine.billingInterval),
      Kept(row.status, theirs.status, mine.status),
      Kept(row.billableSeats, theirs.billableSeats, mine.billableSeats),
      Kept(row.additionalSeatQuantity, theirs.additionalSeatQuantity, mine.additionalSeatQuantity),
      Kept(row.currentPeriodStart, theirs.currentPeriodStart, mine.currentPeriodStart),
      Kept(row.currentPeriodEnd, theirs.currentPeriodEnd, mine.currentPeriodEnd),
      Kept(row.cancelAtPeriodEnd, theirs.cancelAtPeriodEnd, mine.cancelAtPeriodEnd),
      Kept(row.gracePeriodEnd, theirs.gracePeriodEnd, mine.gracePeriodEnd),
      Kept(row.lastProviderEvent, theirs.lastProviderEvent, mine.lastProviderEvent),
      Kept(row.version, theirs.version, mine.version),
      if mine == row then theirs.updatedAt else mine.updatedAt)
  }

  /** The tables after `a` and `b`, both found the row of `w` in `t`, committed in this order. */
  function Overlapped(t: Tables, w: WorkspaceId, a: DodoEvent, envA: Env, b: DodoEvent, envB: Env): Tables
    requires w in t.subscriptions
  {
    var row, first := t.subscriptions[w], After(t, a, envA, Some(w), false);
    var theirs := SubscriptionsAfter(t, a, envA, Some(w), false)[w];
    var mine := SubscriptionsAfter(t, b, envB, Some(w), false)[w];
    first.(subscriptions := t.subscriptions[w := Merged(row, theirs, mine)],
           audit := first.audit + EntriesAdded(t, b, envB, Some(w), false),
           log := first.log[Key(b) := LogRowAfter(t, b, Some(w), false)])
  }

  /** The same rows, and the same audit entries up to their order. */
  ghost predicate Equivalent(n: Tables, m: Tables) {
    n.workspaces == m.workspaces && n.subscriptions == m.subscriptions && n.log == m.log
    && multiset(n.audit) == multiset(m.audit)
  }

  // ----- What each of them does -----

  predicate IsStale(p: Progress, e: DodoEvent)
    requires p.row.Some?
  {
    e.eventType != Unknown && Late(p, e)
  }

  predicate WritesRow(p: Progress, e: DodoEvent)
    requires p.row.Some?
  {
    Writable(e) && !Late(p, e)
  }

  /** The entries a first delivery appends. */
  function Added(c: Campaign, p: Progress, e: DodoEvent, env: Env): seq<AuditEvent>
    requires p.row.Some?
  {
    var row := p.row.value;
    if e.eventType == Unknown then []
    else if Late(p, e) then [StaleEntry(c.workspace, Dodo, e.eventType)]
    else EventEntries(c.workspace, row, UpdatedRow(row, e, env), e, env)
         + StatusEntry(c.workspace, Dodo, row.status, UpdatedRow(row, e, env).status)
  }

  lemma AddedExactly(t: Tables, c: Campaign, p: Progress, e: DodoEvent, env: Env)
    requires IsFamily(c) && Holds(t, c, p) && p.row.Some? && e in c.events && e !in p.done
    ensures c.workspace in t.subscriptions && !SettledIn(t, Key(e))
    ensures EntriesAdded(t, e, env, Some(c.workspace), false) == Added(c, p, e, env)
    ensures SubscriptionsAfter(t, e, env, Some(c.workspace), false)
            == t.subscriptions[c.workspace := RowAfter(p, e, env).value]
  {
    assert EventIsLogged(t, e, p);
    assert RowAt(t, c.workspace) == Some(t.subscriptions[c.workspace]);
    assert t.subscriptions[c.workspace := p.row.value] == t.subscriptions;
    OutdatedExactly(t, c, p, e);
  }

  /** An event that writes no row and is not stale appends nothing. */
  lemma QuietAddsNothing(c: Campaign, p: Progress, e: DodoEvent, env: Env)
    requires p.row.Some? && !Writable(e) && !IsStale(p, e)
    ensures Added(c, p, e, env) == []
  {
  }

  lemma StaleEntriesAreStale(c: Campaign, p: Progress, e: DodoEvent, env: Env)
    requires p.row.Some?
    ensures forall x :: x in Added(c, p, e, env) ==> (x.eventType == WebhookDuplicateIgnored <==> IsStale(p, e))
    ensures IsStale(p, e) ==> |Added(c, p, e, env)| == 1
  {
  }

  function Then(p: Progress, e: DodoEvent, env: Env): Progress {
    Advanced(p, Attempt(e, env, false))
  }

  /** The row both leave behind when they overlap. */
  function MergedRow(p: Progress, a: DodoEvent, envA: Env, b: DodoEvent, envB: Env): Subscription
    requires p.row.Some?
  {
    Merged(p.row.value, RowAfter(p, a, envA).value, RowAfter(p, b, envB).value)
  }

  /** One delivery after the other. */
  function InTurn(t: Tables, w: WorkspaceId, a: DodoEvent, envA: Env, b: DodoEvent, envB: Env): Tables
    requires w in t.subscriptions
  {
    var n := After(t, a, envA, Some(w), false);
    if w in n.subscriptions then After(n, b, envB, Some(w), false) else n
  }

  /** The tables with an event processed, its entries appended and this row stored. */
  function Once(t: Tables, w: WorkspaceId, row: Subscription, entries: seq<AuditEvent>, e: DodoEvent): Tables {
    Tables(t.workspaces, t.subscriptions[w := row], t.log[Key(e) := LogRowAfter(t, e, Some(w), false)],
           t.audit + entries)
  }

  /** The same with two events processed. */
  function Committed(t: Tables, w: WorkspaceId, row: Subscription, entries: seq<AuditEvent>, a: DodoEvent,
                     b: DodoEvent): Tables
  {
    Tables(t.workspaces, t.subscriptions[w := row],
           t.log[Key(a) := LogRowAfter(t, a, Some(w), false)][Key(b) := LogRowAfter(t, b, Some(w), false)],
           t.audit + entries)
  }

  lemma OnceAndOnceAgain(t: Tables, w: WorkspaceId, row: Subscription, xs: seq<AuditEvent>, a: DodoEvent,
                         next: Subscription, ys: seq<AuditEvent>, b: DodoEvent)
    requires Key(a) != Key(b)
    ensures Once(Once(t, w, row, xs, a), w, next, ys, b) == Committed(t, w, next, xs + ys, a, b)
  {
    var n := Once(t, w, row, xs, a);
    assert t.subscriptions[w := row][w := next] == t.subscriptions[w := next];
    assert LogRowAfter(n, b, Some(w), false) == LogRowAfter(t, b, Some(w), false);
    assert t.audit + xs + ys == t.audit + (xs + ys);
  }

  lemma CommittedInAnyOrder(t: Tables, w: WorkspaceId, row: Subscription, entries: seq<AuditEvent>, a: DodoEvent,
                            b: DodoEvent)
    requires Key(a) != Key(b)
    ensures Committed(t, w, row, entries, a, b) == Committed(t, w, row, entries, b, a)
  {
    var x, y := LogRowAfter(t, a, Some(w), false), LogRowAfter(t, b, Some(w), false);
    assert t.log[Key(a) := x][Key(b) := y] == t.log[Key(b) := y][Key(a) := x];
  }

  lemma CommittedAlike(t: Tables, w: WorkspaceId, row: Subscription, entries: seq<AuditEvent>, a: DodoEvent,
                       b: DodoEvent, other: Subscription, others: seq<AuditEvent>)
    ensures Equivalent(Committed(t, w, row, entries, a, b), Committed(t, w, other, others, a, b))
            <==> row == other && multiset(entries) == multiset(others)
  {
    assert t.subscriptions[w := row][w] == row && t.subscriptions[w := other][w] == other;
    assert multiset(t.audit + entries) == multiset(t.audit) + multiset(entries);
    assert multiset(t.audit + others) == multiset(t.audit) + multiset(others);
    assert multiset(t.audit) + multiset(entries) - multiset(t.audit) == multiset(entries);
    assert multiset(t.audit) + multiset(others) - multiset(t.audit) == multiset(others);
  }

  lemma OneDelivery(t: Tables, c: Campaign, p: Progress, e: DodoEvent, env: Env)
    requires IsFamily(c) && Holds(t, c, p) && p.row.Some? && e in c.events && e !in p.done
    ensures c.workspace in t.subscriptions
    ensures var n, q := After(t, e, env, Some(c.workspace), false), Then(p, e, env);
            && Holds(n, c, q) && q.row.Some? && e in q.done && c.workspace in n.subscriptions
            && n == Once(t, c.workspace, q.row.value, Added(c, p, e, env), e)
  {
    var w := c.workspace;
    AddedExactly(t, c, p, e, env);
    DeliverySubscriptions(t, e, env, Some(w), false);
    DeliveryAudit(t, e, env, Some(w), false);
    DeliveryLogRow(t, e, env, Some(w), false);
    OwnLookup(t, c, p, e, Some(w));
    OwnKeeps(t, DodoDelivery(e, env, Some(w), false), c, p);
  }

  lemma InTurnExactly(t: Tables, c: Campaign, p: Progress, a: DodoEvent, envA: Env, b: DodoEvent, envB: Env)
    requires IsFamily(c) && Holds(t, c, p) && p.row.Some?
    requires a in c.events && a !in p.done && b in c.events && b !in p.done && a != b
    ensures c.workspace in t.subscriptions
    ensures var q := Then(p, a, envA);
            && q.row.Some? && Then(q, b, envB).row.Some?
            && InTurn(t, c.workspace, a, envA, b, envB)
               == Committed(t, c.workspace, Then(q, b, envB).row.value, Added(c, p, a, envA)
                            + Added(c, q, b, envB), a, b)
  {
    var w, q := c.workspace, Then(p, a, envA);
    OneDelivery(t, c, p, a, envA);
    OneDelivery(After(t, a, envA, Some(w), false), c, q, b, envB);
    OnceAndOnceAgain(t, w, q.row.value, Added(c, p, a, envA), a, Then(q, b, envB).row.value, Added(c, q, b, envB), b);
  }

  // ----- When one order explains the overlap -----

  predicate AnyCounts(p: Progress) {
    exists d :: d in p.done && Counts(p, d)
  }

  /** Two stale events of the same time that nothing but the row's write time makes stale. */
  predicate IsTie(p: Progress, a: DodoEvent, b: DodoEvent)
    requires p.row.Some?
  {
    IsStale(p, a) && IsStale(p, b) && !AnyCounts(p) && a.occurredAt == b.occurredAt
  }

  /** After `a` is done, an event is late by what made it late before, and by `a`. */
  lemma LateAfter(p: Progress, a: DodoEvent, env: Env, b: DodoEvent)
    requires p.row.Some? && a !in p.done && a !in p.marked && b.occurredAt.Some?
    ensures var q := Then(p, a, env);
            && q.row.Some?
            && (a.occurredAt.None? && AnyCounts(p) ==> (Late(q, b) <==> Late(p, b)))
            && (a.occurredAt.Some? ==>
                  (Late(q, b) <==> (AnyCounts(p) && Late(p, b)) || b.occurredAt.value < a.occurredAt.value))
            && (a.occurredAt.None? && !AnyCounts(p) ==> (Late(q, b) <==> b.occurredAt.value < q.row.value.updatedAt))
  {
    var q := Then(p, a, env);
    assert forall d :: d in q.done && Counts(q, d) <==> (d in p.done && Counts(p, d)) || (d == a && a.occurredAt.Some?);
    if a.occurredAt.Some? {
      assert a in q.done && Counts(q, a);
    }
    assert forall d :: d in p.done && Counts(p, d) ==> d in q.done && Counts(q, d);
  }

  lemma OneOrderKeepsStaleness(p: Progress, a: DodoEvent, envA: Env, b: DodoEvent, envB: Env)
    requires p.row.Some? && a !in p.done && b !in p.done && p.marked <= p.done
    requires !(WritesRow(p, a) && WritesRow(p, b)) && !IsTie(p, a, b)
    ensures Then(p, a, envA).row.Some? && Then(p, b, envB).row.Some?
    ensures (IsStale(Then(p, a, envA), b) <==> IsStale(p, b)) || (IsStale(Then(p, b, envB), a) <==> IsStale(p, a))
  {
    if b.occurredAt.Some? {
      LateAfter(p, a, envA, b);
    }
    if a.occurredAt.Some? {
      LateAfter(p, b, envB, a);
    }
  }

  lemma MergedWithUnchanged(row: Subscription, next: Subscription)
    ensures Merged(row, next, row) == next && Merged(row, row, next) == next
  {
  }

  lemma SecondCommit(t: Tables, w: WorkspaceId, row: Subscription, xs: seq<AuditEvent>, a: DodoEvent,
                     merged: Subscription, ys: seq<AuditEvent>, b: DodoEvent)
    ensures var first := Once(t, w, row, xs, a);
            first.(subscriptions := t.subscriptions[w := merged], audit := first.audit + ys,
                   log := first.log[Key(b) := LogRowAfter(t, b, Some(w), false)])
            == Committed(t, w, merged, xs + ys, a, b)
  {
    assert t.audit + xs + ys == t.audit + (xs + ys);
  }

  lemma OverlappedExactly(t: Tables, c: Campaign, p: Progress, a: DodoEvent, envA: Env, b: DodoEvent, envB: Env)
    requires IsFamily(c) && Holds(t, c, p) && p.row.Some?
    requires a in c.events && a !in p.done && b in c.events && b !in p.done && a != b
    ensures c.workspace in t.subscriptions
    ensures Overlapped(t, c.workspace, a, envA, b, envB)
            == Committed(t, c.workspace, MergedRow(p, a, envA, b, envB),
                         Added(c, p, a, envA) + Added(c, p, b, envB), a, b)
  {
    AddedExactly(t, c, p, a, envA);
    AddedExactly(t, c, p, b, envB);
    OneDelivery(t, c, p, a, envA);
    assert RowAt(t, c.workspace) == Some(t.subscriptions[c.workspace]);
    SecondCommit(t, c.workspace, Then(p, a, envA).row.value, Added(c, p, a, envA), a, MergedRow(p, a, envA, b, envB),
                 Added(c, p, b, envB), b);
  }

  /** One event after the other leaves this row and appends these entries, in some order. */
  ghost predicate Explains(c: Campaign, p: Progress, a: DodoEvent, envA: Env, b: DodoEvent, envB: Env,
                           row: Subscription, entries: seq<AuditEvent>)
    requires p.row.Some?
  {
    var q := Then(p, a, envA);
    && q.row.Some?
    && Then(q, b, envB).row == Some(row)
    && multiset(entries) == multiset(Added(c, p, a, envA) + Added(c, q, b, envB))
  }

  lemma EquivalentExactly(t: Tables, c: Campaign, p: Progress, a: DodoEvent, envA: Env, b: DodoEvent, envB: Env,
                          row: Subscription, entries: seq<AuditEvent>)
    requires IsFamily(c) && Holds(t, c, p) && p.row.Some?
    requires a in c.events && a !in p.done && b in c.events && b !in p.done && a != b
    ensures c.workspace in t.subscriptions
    ensures Equivalent(Committed(t, c.workspace, row, entries, a, b), InTurn(t, c.workspace, a, envA, b, envB))
            <==> Explains(c, p, a, envA, b, envB, row, entries)
  {
    InTurnExactly(t, c, p, a, envA, b, envB);
    var q := Then(p, a, envA);
    CommittedAlike(t, c.workspace, row, entries, a, b, Then(q, b, envB).row.value,
                   Added(c, p, a, envA) + Added(c, q, b, envB));
  }

  /** When at most one of them writes the row, the second one's staleness decides. */
  lemma SameStalenessSameEffect(c: Campaign, p: Progress, a: DodoEvent, envA: Env, b: DodoEvent, envB: Env)
    requires p.row.Some? && a !in p.done && b !in p.done && a != b
    requires !(WritesRow(p, a) && WritesRow(p, b))
    requires Then(p, a, envA).row.Some? && (IsStale(Then(p, a, envA), b) <==> IsStale(p, b))
    ensures var q := Then(p, a, envA);
            && Then(q, b, envB).row == Some(Merged(p.row.value, RowAfter(p, a, envA).value, RowAfter(p, b, envB).value))
            && Then(q, b, envB).row == Some(Merged(p.row.value, RowAfter(p, b, envB).value, RowAfter(p, a, envA).value))
            && Added(c, q, b, envB) == Added(c, p, b, envB)
  {
    var row, q := p.row.value, Then(p, a, envA);
    RowChangesExactly(p, Attempt(a, envA, false));
    RowChangesExactly(p, Attempt(b, envB, false));
    RowChangesExactly(q, Attempt(b, envB, false));
    MergedWithUnchanged(row, RowAfter(p, a, envA).value);
    MergedWithUnchanged(row, RowAfter(p, b, envB).value);
    if WritesRow(p, b) {
      assert q.row == p.row;
    } else if !IsStale(p, b) {
      QuietAddsNothing(c, p, b, envB);
      QuietAddsNothing(c, q, b, envB);
    }
  }

  lemma SameEntries(x: seq<AuditEvent>, y: seq<AuditEvent>)
    ensures multiset(x + y) == multiset(y + x)
  {
  }

  lemma OneOrderExplains(c: Campaign, p: Progress, a: DodoEvent, envA: Env, b: DodoEvent, envB: Env)
    requires p.row.Some? && a !in p.done && b !in p.done && a != b && p.marked <= p.done
    requires !(WritesRow(p, a) && WritesRow(p, b)) && !IsTie(p, a, b)
    ensures var row, entries := MergedRow(p, a, envA, b, envB), Added(c, p, a, envA) + Added(c, p, b, envB);
            Explains(c, p, a, envA, b, envB, row, entries) || Explains(c, p, b, envB, a, envA, row, entries)
  {
    OneOrderKeepsStaleness(p, a, envA, b, envB);
    if IsStale(Then(p, a, envA), b) <==> IsStale(p, b) {
      SameStalenessSameEffect(c, p, a, envA, b, envB);
    } else {
      SameStalenessSameEffect(c, p, b, envB, a, envA);
      SameEntries(Added(c, p, a, envA), Added(c, p, b, envB));
    }
  }

  // ----- When none does -----

  /** What the same entries in another order agree on, when the first ones are the same. */
  lemma AppendedAlike(x: seq<AuditEvent>, y: seq<AuditEvent>, z: seq<AuditEvent>)
    requires multiset(x + y) == multiset(x + z)
    ensures |y| == |z| && forall e :: e in y ==> e in z
  {
    assert multiset(x + y) - multiset(x) == multiset(y);
    assert multiset(x + z) - multiset(x) == multiset(z);
    assert |multiset(y)| == |multiset(z)|;
    forall e | e in y ensures e in z {
      assert e in multiset(z);
    }
  }

  /** The order `a`, `b` does not explain a tie: the second is no longer stale. */
  lemma TieIsNotExplained(c: Campaign, p: Progress, a: DodoEvent, envA: Env, b: DodoEvent, envB: Env,
                          row: Subscription, entries: seq<AuditEvent>)
    requires p.row.Some? && a !in p.done && b !in p.done && a !in p.marked && a != b
    requires IsTie(p, a, b) && row == p.row.value
    requires multiset(entries) == multiset(Added(c, p, a, envA) + Added(c, p, b, envB))
    ensures !Explains(c, p, a, envA, b, envB, row, entries)
  {
    var q := Then(p, a, envA);
    LateAfter(p, a, envA, b);
    QuietOrVersion(c, q, b, envB);
    if Explains(c, p, a, envA, b, envB, row, entries) {
      AppendedAlike(Added(c, p, a, envA), Added(c, p, b, envB), Added(c, q, b, envB));
      assert false;
    }
  }

  /** Nor an overlap in which both write: in turn the second writes the row once more, or is
      stale, and so leaves another version or another entry. */
  lemma BothWritesAreNotExplained(c: Campaign, p: Progress, a: DodoEvent, envA: Env, b: DodoEvent, envB: Env,
                                  row: Subscription, entries: seq<AuditEvent>)
    requires p.row.Some? && a !in p.done && b !in p.done && a != b
    requires WritesRow(p, a) && WritesRow(p, b) && row.version == p.row.value.version + 1
    requires multiset(entries) == multiset(Added(c, p, a, envA) + Added(c, p, b, envB))
    ensures !Explains(c, p, a, envA, b, envB, row, entries)
  {
    var q := Then(p, a, envA);
    QuietOrVersion(c, p, a, envA);
    QuietOrVersion(c, q, b, envB);
    if Explains(c, p, a, envA, b, envB, row, entries) {
      AppendedAlike(Added(c, p, a, envA), Added(c, q, b, envB), Added(c, p, b, envB));
      StaleEntriesAreStale(c, p, b, envB);
      StaleEntriesAreStale(c, q, b, envB);
      assert false;
    }
  }

  lemma QuietOrVersion(c: Campaign, q: Progress, b: DodoEvent, env: Env)
    requires q.row.Some? && b !in q.done
    ensures Then(q, b, env).row.Some?
    ensures Then(q, b, env).row.value.version == q.row.value.version + (if WritesRow(q, b) then 1 else 0)
    ensures !WritesRow(q, b) && !IsStale(q, b) ==> Added(c, q, b, env) == []
  {
    if !WritesRow(q, b) && !IsStale(q, b) {
      QuietAddsNothing(c, q, b, env);
    }
  }

  lemma MergedVersion(p: Progress, a: DodoEvent, envA: Env, b: DodoEvent, envB: Env)
    requires p.row.Some? && a !in p.done && b !in p.done
    ensures WritesRow(p, a) && WritesRow(p, b) ==>
              MergedRow(p, a, envA, b, envB).version == p.row.value.version + 1
    ensures !WritesRow(p, a) && !WritesRow(p, b) ==> MergedRow(p, a, envA, b, envB) == p.row.value
  {
    RowChangesExactly(p, Attempt(a, envA, false));
    RowChangesExactly(p, Attempt(b, envB, false));
  }

  lemma ExplainedExactly(c: Campaign, p: Progress, a: DodoEvent, envA: Env, b: DodoEvent, envB: Env)
    requires p.row.Some? && a !in p.done && b !in p.done && a != b && p.marked <= p.done
    ensures var row, entries := MergedRow(p, a, envA, b, envB), Added(c, p, a, envA) + Added(c, p, b, envB);
            Explains(c, p, a, envA, b, envB, row, entries) || Explains(c, p, b, envB, a, envA, row, entries)
            <==> !(WritesRow(p, a) && WritesRow(p, b)) && !IsTie(p, a, b)
  {
    var row, entries := MergedRow(p, a, envA, b, envB), Added(c, p, a, envA) + Added(c, p, b, envB);
    MergedVersion(p, a, envA, b, envB);
    SameEntries(Added(c, p, a, envA), Added(c, p, b, envB));
    if IsTie(p, a, b) {
      TieIsNotExplained(c, p, a, envA, b, envB, row, entries);
      TieIsNotExplained(c, p, b, envB, a, envA, row, entries);
    } else if WritesRow(p, a) && WritesRow(p, b) {
      BothWritesAreNotExplained(c, p, a, envA, b, envB, row, entries);
      BothWritesAreNotExplained(c, p, b, envB, a, envA, row, entries);
    } else {
      OneOrderExplains(c, p, a, envA, b, envB);
    }
  }

  /** Two overlapping deliveries of different events that find the customer's row have the
      effect of one after the other, in one order or the other, if and only if not both write
      the row, and they are not two stale events of one time with no event to compare with. */
  lemma OverlapIsInTurnExactly(t: Tables, c: Campaign, p: Progress, a: DodoEvent, envA: Env, b: DodoEvent, envB: Env)
    requires IsFamily(c) && Holds(t, c, p) && p.row.Some?
    requires a in c.events && a !in p.done && b in c.events && b !in p.done && a != b
    ensures c.workspace in t.subscriptions
    ensures var n := Overlapped(t, c.workspace, a, envA, b, envB);
            Equivalent(n, InTurn(t, c.workspace, a, envA, b, envB))
                || Equivalent(n, InTurn(t, c.workspace, b, envB, a, envA))
            <==> !(WritesRow(p, a) && WritesRow(p, b)) && !IsTie(p, a, b)
  {
    var row, entries := MergedRow(p, a, envA, b, envB), Added(c, p, a, envA) + Added(c, p, b, envB);
    OverlappedExactly(t, c, p, a, envA, b, envB);
    assert Key(a) != Key(b) && p.marked <= p.done;
    CommittedInAnyOrder(t, c.workspace, row, entries, a, b);
    EquivalentExactly(t, c, p, a, envA, b, envB, row, entries);
    EquivalentExactly(t, c, p, b, envB, a, envA, row, entries);
    ExplainedExactly(c, p, a, envA, b, envB);
  }

  /** So the newest event can lose: when an older one that read the row before commits last,
      the row ends with the older one's status, if that was not the row's before. */
  lemma OlderCanOverwriteNewest(t: Tables, c: Campaign, p: Progress, older: DodoEvent, env: Env, later: Env)
    requires WellFormed(c) && Holds(t, c, p) && p.row.Some?
    requires older in c.events && older !in p.done && IsLifecycle(older.eventType) && older != c.newest
    requires c.newest !in p.done && WritesRow(p, c.newest) && WritesRow(p, older)
    ensures c.workspace in t.subscriptions && IsComplete(older)
    ensures CarriedStatus(older) != p.row.value.status ==>
              Overlapped(t, c.workspace, c.newest, later, older, env).subscriptions[c.workspace].status
                  == CarriedStatus(older)
  {
    OverlappedExactly(t, c, p, c.newest, later, older, env);
    assert IsComplete(older);
    UpdateReflects(p.row.value, older, env);
  }
}
