/** The order in which a customer's events arrive does not decide the status the workspace
    ends with: the newest lifecycle event does, exactly under the conditions found here. */
module OrderIndependence {
  import opened BillingTypes
  import opened DodoEvents
  import opened DodoProcessor
  import opened Runs
  import opened CustomerRow
  import Entitlements

  /** The status an event carries. */
  function CarriedStatus(e: DodoEvent): Status
    requires e.subscriptionStatus.Some?
  {
    Entitlements.NormalizeDodoStatus(e.subscriptionStatus.value)
  }

  /** The status a cancellation, expiry or pause carries is the one its name announces. */
  predicate Coherent(e: DodoEvent)
    requires e.subscriptionStatus.Some?
  {
    && (IsExpiry(e) ==> e.eventType == EventType.SubscriptionCanceled && CarriedStatus(e) == Expired)
    && (e.eventType == EventType.SubscriptionCanceled && !IsExpiry(e) ==> CarriedStatus(e) == Canceled)
    && (e.eventType == SubscriptionPaused ==> CarriedStatus(e) == Paused)
  }

  predicate IsComplete(e: DodoEvent) {
    && IsLifecycle(e.eventType) && MayCreate(e)
    && e.occurredAt.Some? && Coherent(e)
  }

  /** Every lifecycle event is complete, and one of them is the newest. There may be events of
      other types among them, of any time. */
  ghost predicate WellFormed(c: Campaign) {
    && IsFamily(c)
    && c.newest in c.events && IsLifecycle(c.newest.eventType)
    && (forall e :: e in c.events && IsLifecycle(e.eventType) ==> IsComplete(e))
    && (forall e :: e in c.events && IsLifecycle(e.eventType) && e != c.newest ==>
          e.occurredAt.value < c.newest.occurredAt.value)
  }

  /** The row says what the event said. */
  predicate Reflects(row: Subscription, e: DodoEvent)
    requires e.subscriptionStatus.Some? && e.planHint.Some?
  {
    && row.status == CarriedStatus(e)
    && (IsPlanEvent(e) ==> row.planId == e.planHint.value)
    && (IsPlanEvent(e) && e.subscriptionReference.Some? ==> row.subscriptionReference == e.subscriptionReference)
  }

  lemma CreationReflects(e: DodoEvent, env: Env)
    requires IsComplete(e)
    ensures Reflects(CreatedRow(e, env), e)
  {
  }

  lemma UpdateReflects(row: Subscription, e: DodoEvent, env: Env)
    requires IsComplete(e)
    ensures Reflects(UpdatedRow(row, e, env), e)
  {
  }

  // ----- The last delivery that changes the row -----

  /** The event of the last attempt that changes the row; `w` if none does. */
  function LastWriter(p: Progress, attempts: seq<Attempt>, w: Option<DodoEvent>): Option<DodoEvent>
    decreases |attempts|
  {
    if attempts == [] then w
    else
      var n := Advanced(p, attempts[0]);
      LastWriter(n, attempts[1..], if n.row != p.row then Some(attempts[0].event) else w)
  }

  /** Applied to a row, the event changes it. */
  predicate Writable(e: DodoEvent) {
    e.eventType != Unknown && Mutates(e)
  }

  predicate IsFirst(p: Progress, a: Attempt) {
    a.event !in p.done && !a.raised && !IsHomeless(p, a.event)
  }

  lemma RowChangesExactly(p: Progress, a: Attempt)
    ensures Advanced(p, a).row != p.row
            <==> IsFirst(p, a) && if p.row.None? then MayCreate(a.event) else Writable(a.event) && !Late(p, a.event)
  {
    if IsFirst(p, a) && p.row.Some? && Writable(a.event) && !Late(p, a.event) {
      assert Advanced(p, a).row.value.version == p.row.value.version + 1;
    }
  }

  /** At its first completed delivery, the newest event is not late, and after it every event
      that would change the row is. */
  predicate IsTimely(c: Campaign, p: Progress, a: Attempt) {
    IsFirst(p, a) && p.row.Some? ==>
      && (a.event == c.newest ==> !Late(p, a.event))
      && (c.newest in p.done && Writable(a.event) ==> Late(p, a.event))
  }

  predicate AllTimely(c: Campaign, p: Progress, attempts: seq<Attempt>)
    decreases |attempts|
  {
    attempts == [] || (IsTimely(c, p, attempts[0]) && AllTimely(c, Advanced(p, attempts[0]), attempts[1..]))
  }

  predicate AreOwn(c: Campaign, attempts: seq<Attempt>) {
    forall i :: 0 <= i < |attempts| ==> attempts[i].event in c.events
  }

  /** Once a lifecycle event is done there is a row. */
  ghost predicate Reachable(c: Campaign, p: Progress) {
    && p.marked <= p.done <= c.events
    && (p.row.Some? <==> exists e :: e in p.done && IsLifecycle(e.eventType))
  }

  lemma AdvancedIsReachable(c: Campaign, p: Progress, a: Attempt)
    requires WellFormed(c) && Reachable(c, p) && a.event in c.events
    ensures Reachable(c, Advanced(p, a))
  {
    if p.row.None? && IsFirst(p, a) && IsLifecycle(a.event.eventType) {
      assert a.event in Advanced(p, a).done;
    }
    if e :| e in p.done && IsLifecycle(e.eventType) {
      assert e in Advanced(p, a).done;
    }
  }

  lemma {:induction false} AfterTheNewest(c: Campaign, p: Progress, attempts: seq<Attempt>, w: Option<DodoEvent>)
    requires WellFormed(c) && Reachable(c, p) && AreOwn(c, attempts) && c.newest in p.done
    ensures LastWriter(p, attempts, w) == Some(c.newest) <==> w == Some(c.newest) && AllTimely(c, p, attempts)
    decreases |attempts|
  {
    if attempts != [] {
      var a, n := attempts[0], Advanced(p, attempts[0]);
      AdvancedIsReachable(c, p, a);
      RowChangesExactly(p, a);
      AfterTheNewest(c, n, attempts[1..], if n.row != p.row then Some(a.event) else w);
    }
  }

  /** The newest event is the last to change the row if and only if every attempt is timely. */
  lemma {:induction false} NewestWritesLastExactly(c: Campaign, p: Progress, attempts: seq<Attempt>,
                                                   w: Option<DodoEvent>)
    requires WellFormed(c) && Reachable(c, p) && AreOwn(c, attempts)
    requires c.newest !in p.done && w != Some(c.newest) && c.newest in Played(p, attempts).done
    ensures LastWriter(p, attempts, w) == Some(c.newest) <==> AllTimely(c, p, attempts)
    decreases |attempts|
  {
    var a, n := attempts[0], Advanced(p, attempts[0]);
    var next := if n.row != p.row then Some(a.event) else w;
    AdvancedIsReachable(c, p, a);
    RowChangesExactly(p, a);
    if c.newest in n.done {
      assert a.event == c.newest && IsComplete(c.newest);
      AfterTheNewest(c, n, attempts[1..], next);
    } else {
      NewestWritesLastExactly(c, n, attempts[1..], next);
    }
  }

  lemma {:induction false} LastWriterIsReflected(c: Campaign, p: Progress, attempts: seq<Attempt>, w: Option<DodoEvent>)
    requires WellFormed(c) && Reachable(c, p) && AreOwn(c, attempts)
    requires IsComplete(c.newest) && (w == Some(c.newest) ==> p.row.Some? && Reflects(p.row.value, c.newest))
    ensures LastWriter(p, attempts, w) == Some(c.newest) ==>
              Played(p, attempts).row.Some? && Reflects(Played(p, attempts).row.value, c.newest)
    decreases |attempts|
  {
    if attempts != [] {
      var a, n := attempts[0], Advanced(p, attempts[0]);
      AdvancedIsReachable(c, p, a);
      if n.row != p.row && a.event == c.newest {
        CreationReflects(c.newest, a.env);
        if p.row.Some? {
          UpdateReflects(p.row.value, c.newest, a.env);
        }
      }
      LastWriterIsReflected(c, n, attempts[1..], if n.row != p.row then Some(a.event) else w);
    }
  }

  // ----- Over runs -----

  /** Traffic, from a database in which the customer is still unknown, that has brought the
      newest event through: some delivery of it is done. */
  ghost predicate Brings(c: Campaign, t: Tables, steps: seq<Step>) {
    && Start(t, c) && ValidRun(t, steps) && IsTraffic(c, steps)
    && c.newest in Played(FRESH, OwnAttempts(c, steps)).done
  }

  /** The last delivery that changed the workspace's row was one of the newest event. */
  predicate NewestWroteLast(c: Campaign, steps: seq<Step>) {
    LastWriter(FRESH, OwnAttempts(c, steps), None) == Some(c.newest)
  }

  ghost predicate RowReflectsNewest(c: Campaign, t: Tables) {
    IsComplete(c.newest) && c.workspace in t.subscriptions && Reflects(t.subscriptions[c.workspace], c.newest)
  }

  lemma {:induction false} OwnAttemptsAreOwn(c: Campaign, steps: seq<Step>)
    ensures AreOwn(c, OwnAttempts(c, steps))
  {
    if steps != [] {
      OwnAttemptsAreOwn(c, steps[1..]);
    }
  }

  /** Whatever is delivered, in whatever order, again or in vain: the newest event is the last
      to write the row if and only if every attempt is timely; the row then has its status,
      and its plan and the reference it names if it is a creation or an update. */
  lemma NewestEventDecidesExactly(t: Tables, steps: seq<Step>, c: Campaign)
    requires WellFormed(c) && Brings(c, t, steps)
    ensures NewestWroteLast(c, steps) <==> AllTimely(c, FRESH, OwnAttempts(c, steps))
    ensures NewestWroteLast(c, steps) ==> RowReflectsNewest(c, Run(t, steps))
  {
    var attempts := OwnAttempts(c, steps);
    OwnAttemptsAreOwn(c, steps);
    NewestWritesLastExactly(c, FRESH, attempts, None);
    assert IsComplete(c.newest);
    LastWriterIsReflected(c, FRESH, attempts, None);
    RowIsPlayed(t, steps, c);
    assert RowAt(Run(t, steps), c.workspace).Some? ==> c.workspace in Run(t, steps).subscriptions;
  }

  // ----- Orderly schedules -----

  /** An event that is done is delivered again only once the newest is done, and the newest
      itself only once all are. Attempts may fail at any time. */
  predicate IsOrderly(c: Campaign, p: Progress, attempts: seq<Attempt>)
    decreases |attempts|
  {
    attempts == []
    || (&& (attempts[0].event in p.done ==>
              (c.newest in p.done && attempts[0].event != c.newest) || p.done == c.events)
        && IsOrderly(c, Advanced(p, attempts[0]), attempts[1..]))
  }

  predicate IsOlder(c: Campaign, e: DodoEvent) {
    e.occurredAt.Some? && c.newest.occurredAt.Some? && e.occurredAt.value < c.newest.occurredAt.value
  }

  predicate IsNewer(c: Campaign, e: DodoEvent) {
    e.occurredAt.Some? && c.newest.occurredAt.Some? && e.occurredAt.value > c.newest.occurredAt.value
  }

  /** The newest is the only lifecycle event. */
  predicate IsAlone(c: Campaign) {
    forall e :: e in c.events && IsLifecycle(e.eventType) ==> e == c.newest
  }

  /** An event of another type that cannot come between the newest event and the row: it is
      older, or it changes no row and does not make the newest look old. */
  predicate IsHarmless(c: Campaign, e: DodoEvent) {
    IsOlder(c, e) || (!Writable(e) && (!IsNewer(c, e) || IsAlone(c)))
  }

  predicate OthersAreHarmless(c: Campaign) {
    forall e :: e in c.events && !IsLifecycle(e.eventType) ==> IsHarmless(c, e)
  }

  /** In an orderly schedule, no event is marked before the newest and all others are done,
      but for those delivered again after the newest. */
  ghost predicate MarkedInOrder(c: Campaign, p: Progress) {
    p.marked == {} || (c.newest in p.done && c.newest !in p.marked) || p.done == c.events
  }

  lemma OrderlyIsTimely(c: Campaign, p: Progress, a: Attempt)
    requires WellFormed(c) && OthersAreHarmless(c)
    requires Reachable(c, p) && MarkedInOrder(c, p) && a.event in c.events
    ensures IsTimely(c, p, a)
  {
    if IsFirst(p, a) && p.row.Some? {
      if a.event == c.newest {
        var e :| e in p.done && IsLifecycle(e.eventType);
        assert IsComplete(e) && Counts(p, e);
        forall d | d in p.done && Counts(p, d) ensures !(c.newest.occurredAt.value < d.occurredAt.value) {
          assert IsLifecycle(d.eventType) || IsHarmless(c, d);
        }
      } else if c.newest in p.done && Writable(a.event) {
        assert IsComplete(c.newest) && Counts(p, c.newest);
        assert IsLifecycle(a.event.eventType) || IsHarmless(c, a.event);
        assert IsOlder(c, a.event);
      }
    }
  }

  lemma {:induction false} OrderlyIsAllTimely(c: Campaign, p: Progress, attempts: seq<Attempt>)
    requires WellFormed(c) && OthersAreHarmless(c) && AreOwn(c, attempts)
    requires Reachable(c, p) && MarkedInOrder(c, p) && IsOrderly(c, p, attempts)
    ensures AllTimely(c, p, attempts)
    decreases |attempts|
  {
    if attempts != [] {
      OrderlyIsTimely(c, p, attempts[0]);
      AdvancedIsReachable(c, p, attempts[0]);
      OrderlyIsAllTimely(c, Advanced(p, attempts[0]), attempts[1..]);
    }
  }

  /** A schedule as the provider intends it, which has brought the newest event through. */
  ghost predicate Through(c: Campaign, t: Tables, steps: seq<Step>) {
    Brings(c, t, steps) && IsOrderly(c, FRESH, OwnAttempts(c, steps))
  }

  /** One that has brought all events through. */
  ghost predicate Completed(c: Campaign, t: Tables, steps: seq<Step>) {
    Through(c, t, steps) && Played(FRESH, OwnAttempts(c, steps)).done == c.events
  }

  /** When the events of other types are harmless: as soon as the newest event is done, and
      from then on, the row has its status; when it is a creation or an update, also its plan
      and the reference it names. */
  lemma NewestEventDecides(t: Tables, steps: seq<Step>, c: Campaign)
    requires WellFormed(c) && OthersAreHarmless(c) && Through(c, t, steps)
    ensures NewestWroteLast(c, steps) && RowReflectsNewest(c, Run(t, steps))
  {
    OwnAttemptsAreOwn(c, steps);
    OrderlyIsAllTimely(c, FRESH, OwnAttempts(c, steps));
    NewestEventDecidesExactly(t, steps, c);
  }

  /** Any two deliveries of the same events, in any two orders and among any other traffic,
      end in the same status, and in the same plan and reference when the newest event is a
      creation or an update naming one. */
  lemma OrderDoesNotMatter(t: Tables, steps: seq<Step>, u: Tables, others: seq<Step>, c: Campaign)
    requires WellFormed(c) && OthersAreHarmless(c) && Through(c, t, steps) && Through(c, u, others)
    ensures c.workspace in Run(t, steps).subscriptions && c.workspace in Run(u, others).subscriptions
    ensures var a, b := Run(t, steps).subscriptions[c.workspace], Run(u, others).subscriptions[c.workspace];
            && a.status == b.status
            && (IsPlanEvent(c.newest) ==> a.planId == b.planId)
            && (IsPlanEvent(c.newest) && c.newest.subscriptionReference.Some?
                ==> a.subscriptionReference == b.subscriptionReference)
  {
    NewestEventDecides(t, steps, c);
    NewestEventDecides(u, others, c);
  }

  // ----- Exactly which other events are harmless -----

  lemma {:induction false} OrderlyConcat(c: Campaign, p: Progress, a: seq<Attempt>, b: seq<Attempt>)
    requires IsOrderly(c, p, a) && IsOrderly(c, Played(p, a), b)
    ensures IsOrderly(c, p, a + b)
    decreases |a|
  {
    if a == [] {
      assert a + b == b;
    } else {
      assert (a + b)[1..] == a[1..] + b;
      OrderlyConcat(c, Advanced(p, a[0]), a[1..], b);
    }
  }

  lemma OneMoreBefore(c: Campaign, p: Progress, a: Attempt, rest: seq<Attempt>)
    requires a.event in c.events && a.event !in p.done && AreOwn(c, rest) && IsOrderly(c, Advanced(p, a), rest)
    ensures AreOwn(c, [a] + rest) && IsOrderly(c, p, [a] + rest)
    ensures Played(p, [a] + rest) == Played(Advanced(p, a), rest)
  {
    assert ([a] + rest)[1..] == rest;
  }

  /** Once the newest event is done the others can all be brought through. */
  lemma {:induction false} Complete(c: Campaign, p: Progress, env: Env) returns (attempts: seq<Attempt>)
    requires WellFormed(c) && Reachable(c, p) && c.newest in p.done
    ensures AreOwn(c, attempts) && IsOrderly(c, p, attempts) && Played(p, attempts).done == c.events
    decreases c.events - p.done
  {
    if c.events <= p.done {
      return [];
    }
    var e :| e in c.events && e !in p.done;
    var a := Attempt(e, env, false);
    AdvancedIsReachable(c, p, a);
    var rest := Complete(c, Advanced(p, a), env);
    OneMoreBefore(c, p, a, rest);
    attempts := [a] + rest;
  }

  /** First deliveries that reach `p`, all of our events. */
  ghost predicate Reaches(c: Campaign, attempts: seq<Attempt>, p: Progress) {
    && AreOwn(c, attempts) && IsOrderly(c, FRESH, attempts)
    && Played(FRESH, attempts) == p && Reachable(c, p)
  }

  /** A list of first deliveries that ends with the newest event done can be completed, from
      some database, to a run of such deliveries of all events. */
  lemma CompletedRun(c: Campaign, first: seq<Attempt>, env: Env)
    returns (t: Tables, steps: seq<Step>, rest: seq<Attempt>)
    requires WellFormed(c) && Reaches(c, first, Played(FRESH, first)) && c.newest in Played(FRESH, first).done
    ensures Completed(c, t, steps) && OwnAttempts(c, steps) == first + rest && AreOwn(c, rest)
    ensures IsOrderly(c, Played(FRESH, first), rest)
  {
    rest := Complete(c, Played(FRESH, first), env);
    t, steps := SomeRun(c, first + rest);
    PlayedConcat(FRESH, first, rest);
    OrderlyConcat(c, FRESH, first, rest);
  }

  lemma {:induction false} AllTimelyConcat(c: Campaign, p: Progress, a: seq<Attempt>, b: seq<Attempt>)
    ensures AllTimely(c, p, a + b) <==> AllTimely(c, p, a) && AllTimely(c, Played(p, a), b)
    decreases |a|
  {
    if a == [] {
      assert a + b == b;
    } else {
      assert (a + b)[1..] == a[1..] + b;
      AllTimelyConcat(c, Advanced(p, a[0]), a[1..], b);
    }
  }

  /** One more event, delivered for the first time. */
  lemma ReachFurther(c: Campaign, attempts: seq<Attempt>, p: Progress, a: Attempt)
    requires WellFormed(c) && Reaches(c, attempts, p) && a.event in c.events && a.event !in p.done
    ensures Reaches(c, attempts + [a], Advanced(p, a))
    ensures AllTimely(c, FRESH, attempts + [a]) <==> AllTimely(c, FRESH, attempts) && IsTimely(c, p, a)
  {
    assert [a][1..] == [];
    AdvancedIsReachable(c, p, a);
    PlayedOneMore(FRESH, attempts, a);
    assert IsOrderly(c, p, [a]);
    OrderlyConcat(c, FRESH, attempts, [a]);
    AllTimelyConcat(c, FRESH, attempts, [a]);
  }

  /** An event of another type that is not harmless can keep the newest from being the last.
      One that writes the row can be delivered after the newest, */
  lemma HarmAfterwards(c: Campaign, e: DodoEvent, env: Env) returns (first: seq<Attempt>)
    requires WellFormed(c) && e in c.events && e != c.newest && Writable(e) && !IsOlder(c, e)
    ensures Reaches(c, first, Played(FRESH, first)) && c.newest in Played(FRESH, first).done
    ensures !AllTimely(c, FRESH, first)
  {
    var a, b := Attempt(c.newest, env, false), Attempt(e, env, false);
    assert IsComplete(c.newest);
    var p := Advanced(FRESH, a);
    ReachFurther(c, [], FRESH, a);
    ReachFurther(c, [] + [a], p, b);
    assert Counts(p, c.newest) && p.done == {c.newest} && !Late(p, e);
    first := [] + [a] + [b];
  }

  /** and one that only makes the newest look old, between another lifecycle event and it. */
  lemma HarmBefore(c: Campaign, d: DodoEvent, e: DodoEvent, env: Env) returns (first: seq<Attempt>)
    requires WellFormed(c) && d in c.events && IsLifecycle(d.eventType) && d != c.newest
    requires e in c.events && !IsLifecycle(e.eventType) && IsNewer(c, e)
    ensures Reaches(c, first, Played(FRESH, first)) && c.newest in Played(FRESH, first).done
    ensures !AllTimely(c, FRESH, first)
  {
    var x, y, z := Attempt(d, env, false), Attempt(e, env, false), Attempt(c.newest, env, false);
    assert IsComplete(d) && IsComplete(c.newest);
    var p := Advanced(FRESH, x);
    var q := Advanced(p, y);
    ReachFurther(c, [], FRESH, x);
    ReachFurther(c, [] + [x], p, y);
    ReachFurther(c, [] + [x] + [y], q, z);
    assert Counts(q, e) && Late(q, c.newest);
    first := [] + [x] + [y] + [z];
  }

  /** Every orderly schedule that brings the newest lifecycle event through, and already every
      one that brings all events through, has it write the row last, if and only if the
      events of other types are harmless. */
  lemma HarmlessExactly(c: Campaign)
    requires WellFormed(c)
    ensures (forall t, steps :: Through(c, t, steps) ==> NewestWroteLast(c, steps)) <==> OthersAreHarmless(c)
    ensures (forall t, steps :: Completed(c, t, steps) ==> NewestWroteLast(c, steps)) <==> OthersAreHarmless(c)
  {
    if OthersAreHarmless(c) {
      forall t, steps | Through(c, t, steps) ensures NewestWroteLast(c, steps) {
        NewestEventDecides(t, steps, c);
      }
    } else {
      var e :| e in c.events && !IsLifecycle(e.eventType) && !IsHarmless(c, e);
      var env := Env(0, Settings("dodo", LiveMode, true, None, None, None, None, 7));
      var first;
      if Writable(e) {
        first := HarmAfterwards(c, e, env);
      } else {
        var d :| d in c.events && IsLifecycle(d.eventType) && d != c.newest;
        first := HarmBefore(c, d, e, env);
      }
      var t, steps, rest := CompletedRun(c, first, env);
      AllTimelyConcat(c, FRESH, first, rest);
      NewestEventDecidesExactly(t, steps, c);
      assert Completed(c, t, steps) && !NewestWroteLast(c, steps);
    }
  }
}
