/** What single orders and redeliveries do: instances of the exact results, for every run in
    which the customer's own deliveries are the given ones, whatever else happens in it. */
module OrderHazards {
  import opened BillingTypes
  import opened DodoEvents
  import opened DodoProcessor
  import opened Runs
  import opened CustomerRow
  import opened OrderIndependence

  lemma PlayedTwo(p: Progress, a: Attempt, b: Attempt)
    ensures Played(p, [a, b]) == Advanced(Advanced(p, a), b)
  {
    PlayedOneMore(p, [], a);
    PlayedOneMore(p, [a], b);
    assert [] + [a] == [a] && [a] + [b] == [a, b];
  }

  /** The row after two lifecycle events, one of them the newest: the other one's creation,
      updated by the newest, or the newest's creation alone. */
  lemma SecondEvent(t: Tables, steps: seq<Step>, c: Campaign, first: DodoEvent, second: DodoEvent, env: Env, later: Env)
    requires WellFormed(c) && first in c.events && second in c.events && first != second
    requires IsLifecycle(first.eventType) && IsLifecycle(second.eventType) && (first == c.newest || second == c.newest)
    requires Plays(c, t, steps, [Attempt(first, env, false), Attempt(second, later, false)])
    ensures MayCreate(first)
    ensures RowAt(Run(t, steps), c.workspace)
            == Some(if second == c.newest
                    then UpdatedRow(CreatedRow(first, env), second, later) else CreatedRow(first, env))
  {
    var a, b := Attempt(first, env, false), Attempt(second, later, false);
    assert IsComplete(first) && IsComplete(second);
    RowIsPlayed(t, steps, c);
    PlayedTwo(FRESH, a, b);
    assert Counts(Advanced(FRESH, a), first) && Advanced(FRESH, a).done == {first};
  }

  /** Two Team events with different seat counts end with the seats of whichever came first:
      an update that does not change the plan does not change the seats. */
  lemma SeatsDependOnOrder(t: Tables, inOrder: seq<Step>, u: Tables, reversed: seq<Step>, c: Campaign,
                           older: DodoEvent, env: Env, later: Env)
    requires WellFormed(c) && older in c.events && older != c.newest && IsPlanEvent(older) && IsPlanEvent(c.newest)
    requires older.planHint == Some(Team) && c.newest.planHint == Some(Team)
    requires Plays(c, t, inOrder, [Attempt(older, env, false), Attempt(c.newest, later, false)])
    requires Plays(c, u, reversed, [Attempt(c.newest, env, false), Attempt(older, later, false)])
    ensures c.workspace in Run(t, inOrder).subscriptions && c.workspace in Run(u, reversed).subscriptions
    ensures Run(t, inOrder).subscriptions[c.workspace].billableSeats == 20 + SeatCount(older)
    ensures Run(u, reversed).subscriptions[c.workspace].billableSeats == 20 + SeatCount(c.newest)
  {
    SecondEvent(t, inOrder, c, older, c.newest, env, later);
    SecondEvent(u, reversed, c, c.newest, older, env, later);
  }

  /** A customer who buys a Team plan with three extra seats and then changes to seven. */
  lemma TwoTeamEvents() returns (c: Campaign, bought: DodoEvent)
    ensures WellFormed(c) && bought != c.newest && c.events == {bought, c.newest}
    ensures IsPlanEvent(bought) && IsPlanEvent(c.newest)
    ensures bought.planHint == Some(Team) && c.newest.planHint == Some(Team)
    ensures bought.seatCountHint == Some(3) && c.newest.seatCountHint == Some(7)
  {
    bought := DodoEvent("a", SubscriptionCreated, "subscription.active", Some(10), Some("cus"), Some("sub"), None,
                        Some("active"), Some(1), Some(Team), Some(3), None, None, None);
    var changed := bought.(externalEventId := "b", eventType := SubscriptionUpdated,
                           rawEventName := "subscription.updated", occurredAt := Some(20), seatCountHint := Some(7));
    c := Campaign(1, "cus", {bought, changed}, changed);
    assert bought.externalEventId != changed.externalEventId;
    assert |bought.rawEventName| != |EXPIRED_EVENT| && changed.rawEventName[13] != EXPIRED_EVENT[13];
    assert IsComplete(bought) && IsComplete(changed);
  }

  lemma BothDeliveredIsCompleted(t: Tables, steps: seq<Step>, c: Campaign, a: Attempt, b: Attempt)
    requires WellFormed(c) && c.events == {a.event, b.event} && a.event != b.event && b.event == c.newest
    requires !a.raised && !b.raised && IsLifecycle(a.event.eventType) && Plays(c, t, steps, [a, b])
    ensures Completed(c, t, steps)
  {
    PlayedTwo(FRESH, a, b);
    ReachFurther(c, [], FRESH, a);
    assert IsComplete(a.event);
    ReachFurther(c, [] + [a], Advanced(FRESH, a), b);
    assert [] + [a] + [b] == [a, b];
  }

  /** Such events exist; delivered in order, the workspace keeps the three seats. */
  lemma SeatsOfTheNewestAreLost() returns (t: Tables, c: Campaign, steps: seq<Step>)
    ensures WellFormed(c) && OthersAreHarmless(c) && Completed(c, t, steps)
    ensures c.workspace in Run(t, steps).subscriptions
    ensures c.newest.seatCountHint == Some(7) && Run(t, steps).subscriptions[c.workspace].additionalSeatQuantity == 3
  {
    var bought;
    c, bought := TwoTeamEvents();
    var env := Env(30, Settings("dodo", LiveMode, true, None, None, None, None, 7));
    var a, b := Attempt(bought, env, false), Attempt(c.newest, env, false);
    t, steps := SomeRun(c, [a, b]);
    BothDeliveredIsCompleted(t, steps, c, a, b);
    SecondEvent(t, steps, c, bought, c.newest, env, env);
  }

  /** When the newest event is a pause or a cancellation, the plan too is the first one's. */
  lemma PlanOfAPauseDependsOnOrder(t: Tables, inOrder: seq<Step>, u: Tables, reversed: seq<Step>, c: Campaign,
                                   older: DodoEvent, env: Env, later: Env)
    requires WellFormed(c) && older in c.events && older != c.newest && IsLifecycle(older.eventType)
    requires !IsPlanEvent(c.newest)
    requires Plays(c, t, inOrder, [Attempt(older, env, false), Attempt(c.newest, later, false)])
    requires Plays(c, u, reversed, [Attempt(c.newest, env, false), Attempt(older, later, false)])
    ensures c.workspace in Run(t, inOrder).subscriptions && c.workspace in Run(u, reversed).subscriptions
    ensures Some(Run(t, inOrder).subscriptions[c.workspace].planId) == older.planHint
    ensures Some(Run(u, reversed).subscriptions[c.workspace].planId) == c.newest.planHint
  {
    SecondEvent(t, inOrder, c, older, c.newest, env, later);
    SecondEvent(u, reversed, c, c.newest, older, env, later);
  }

  // ----- Redelivery -----

  /** After `a`, the newest, and the newest once more, only `a` counts. */
  lemma NewestTwice(c: Campaign, a: DodoEvent, e0: Env, e1: Env, e2: Env) returns (p: Progress)
    requires WellFormed(c) && a in c.events && IsLifecycle(a.eventType) && a != c.newest
    ensures IsComplete(a) && IsComplete(c.newest)
    ensures p == Progress({a, c.newest}, {c.newest}, Some(UpdatedRow(CreatedRow(a, e0), c.newest, e1)))
    ensures Played(FRESH, [Attempt(a, e0, false), Attempt(c.newest, e1, false), Attempt(c.newest, e2, false)]) == p
  {
    var x, y, z := Attempt(a, e0, false), Attempt(c.newest, e1, false), Attempt(c.newest, e2, false);
    assert IsComplete(a) && IsComplete(c.newest);
    var p1 := Advanced(FRESH, x);
    assert Counts(p1, a) && p1.done == {a} && !Late(p1, c.newest);
    p := Advanced(Advanced(p1, y), z);
    assert {a} + {c.newest} == {a, c.newest} && {} + {c.newest} == {c.newest};
    assert [x, y, z] == [x, y] + [z];
    PlayedTwo(FRESH, x, y);
    PlayedOneMore(FRESH, [x, y], z);
  }

  /** What an older event then does: it is late only for `a`. */
  lemma OlderAfterNewestTwice(c: Campaign, a: DodoEvent, o: DodoEvent, p: Progress, env: Env)
    requires a.occurredAt.Some? && o.occurredAt.Some? && o != a && o != c.newest && a != c.newest
    requires IsLifecycle(o.eventType) && p.row.Some? && p.done == {a, c.newest} && p.marked == {c.newest}
    ensures Advanced(p, Attempt(o, env, false)).row
            == Some(if a.occurredAt.value <= o.occurredAt.value then UpdatedRow(p.row.value, o, env) else p.row.value)
    ensures UpdatedRow(p.row.value, o, env) != p.row.value
  {
    assert Counts(p, a) && forall d :: Counts(p, d) ==> d == a;
    assert UpdatedRow(p.row.value, o, env).version == p.row.value.version + 1;
  }

  /** Redelivering the newest event before the others have all arrived can undo it: for any
      lifecycle events `a` and `o` older than the newest, after the deliveries a, newest,
      newest the row has what the newest says; delivering `o` then changes the row, and makes
      it what `o` says, exactly when `o` is no older than `a`. */
  lemma RedeliveryOfNewestUndoesIt(t: Tables, steps: seq<Step>, c: Campaign, a: DodoEvent, o: DodoEvent,
                                   e0: Env, e1: Env, e2: Env, e3: Env)
    requires WellFormed(c) && a in c.events && o in c.events && a != c.newest && o != c.newest && a != o
    requires IsLifecycle(a.eventType) && IsLifecycle(o.eventType)
    requires Plays(c, t, steps, [Attempt(a, e0, false), Attempt(c.newest, e1, false), Attempt(c.newest, e2, false)]
                                + [Attempt(o, e3, false)])
    ensures IsComplete(a) && IsComplete(o) && IsComplete(c.newest)
    ensures var before, after := UpdatedRow(CreatedRow(a, e0), c.newest, e1), RowAt(Run(t, steps), c.workspace);
            && Reflects(before, c.newest)
            && after == Some(if a.occurredAt.value <= o.occurredAt.value then UpdatedRow(before, o, e3) else before)
            && (after != Some(before) <==> a.occurredAt.value <= o.occurredAt.value)
            && (after != Some(before) ==> Reflects(after.value, o))
  {
    assert IsComplete(o);
    var p := NewestTwice(c, a, e0, e1, e2);
    RowIsPlayed(t, steps, c);
    PlayedOneMore(FRESH, [Attempt(a, e0, false), Attempt(c.newest, e1, false), Attempt(c.newest, e2, false)],
                  Attempt(o, e3, false));
    OlderAfterNewestTwice(c, a, o, p, e3);
    UpdateReflects(CreatedRow(a, e0), c.newest, e1);
    UpdateReflects(p.row.value, o, e3);
  }

  /** Redelivering the only completed event leaves nothing to compare with but the time the
      row was written: the newest event is then dropped exactly when it happened before that. */
  lemma RedeliveryOfOlderDropsNewest(t: Tables, steps: seq<Step>, c: Campaign, a: DodoEvent, e0: Env, e1: Env, e2: Env)
    requires WellFormed(c) && a in c.events && a != c.newest && IsLifecycle(a.eventType)
    requires Plays(c, t, steps, [Attempt(a, e0, false), Attempt(a, e1, false)] + [Attempt(c.newest, e2, false)])
    ensures IsComplete(a) && IsComplete(c.newest)
    ensures RowAt(Run(t, steps), c.workspace) == Some(CreatedRow(a, e0)) <==> c.newest.occurredAt.value < e0.now
  {
    assert IsComplete(a) && IsComplete(c.newest);
    var x, y, z := Attempt(a, e0, false), Attempt(a, e1, false), Attempt(c.newest, e2, false);
    RowIsPlayed(t, steps, c);
    PlayedTwo(FRESH, x, y);
    PlayedOneMore(FRESH, [x, y], z);
    var p := Played(FRESH, [x, y]);
    assert p.done == {a} == p.marked && forall d :: !Counts(p, d);
    assert UpdatedRow(CreatedRow(a, e0), c.newest, e2).version == 1;
  }
}
