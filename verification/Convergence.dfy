/** Which parts of the final row the order of deliveries leaves open, and for which
    customers it leaves none of them open. */
module Convergence {
  import opened BillingTypes
  import opened DodoEvents
  import opened DodoProcessor
  import opened Runs
  import opened CustomerRow
  import opened OrderIndependence

  /** The plan and the seats of the row are those the event asks for. */
  predicate TermsOf(row: Subscription, e: DodoEvent) {
    && e.planHint.Some?
    && row.planId == e.planHint.value
    && row.billableSeats == SeatsFor(e.planHint.value, SeatCount(e))
    && row.additionalSeatQuantity == AdditionalSeatsFor(e.planHint.value, SeatCount(e))
  }

  /** Some lifecycle event that is done asked for the terms the row has. */
  ghost predicate HasSource(p: Progress) {
    p.row.Some? ==> exists e :: e in p.done && IsLifecycle(e.eventType) && TermsOf(p.row.value, e)
  }

  /** An update that keeps the plan keeps the terms; one that changes it brings its own. */
  lemma UpdateHasTerms(row: Subscription, e: DodoEvent, env: Env, source: DodoEvent)
    requires TermsOf(row, source) && (IsLifecycle(e.eventType) ==> e.planHint.Some?)
    ensures TermsOf(UpdatedRow(row, e, env), source)
            || (IsLifecycle(e.eventType) && TermsOf(UpdatedRow(row, e, env), e))
  {
  }

  lemma AdvancedHasSource(c: Campaign, p: Progress, a: Attempt)
    requires WellFormed(c) && Reachable(c, p) && a.event in c.events && HasSource(p)
    ensures HasSource(Advanced(p, a))
  {
    var n := Advanced(p, a);
    assert IsLifecycle(a.event.eventType) ==> IsComplete(a.event);
    if n.row == p.row {
      assert p.done <= n.done;
    } else if p.row.None? {
      assert a.event in n.done && TermsOf(n.row.value, a.event);
    } else {
      var source :| source in p.done && IsLifecycle(source.eventType) && TermsOf(p.row.value, source);
      UpdateHasTerms(p.row.value, a.event, a.env, source);
      assert source in n.done && a.event in n.done;
    }
  }

  lemma {:induction false} PlayedHasSource(c: Campaign, p: Progress, attempts: seq<Attempt>)
    requires WellFormed(c) && Reachable(c, p) && AreOwn(c, attempts) && HasSource(p)
    ensures HasSource(Played(p, attempts)) && Reachable(c, Played(p, attempts))
    decreases |attempts|
  {
    if attempts != [] {
      AdvancedIsReachable(c, p, attempts[0]);
      AdvancedHasSource(c, p, attempts[0]);
      PlayedHasSource(c, Advanced(p, attempts[0]), attempts[1..]);
    }
  }

  /** Whatever was delivered, in whatever order and however often: a row has the plan and the
      seats some lifecycle event of the customer asked for, together. */
  lemma FinalTerms(t: Tables, steps: seq<Step>, c: Campaign) returns (source: DodoEvent)
    requires WellFormed(c) && Start(t, c) && ValidRun(t, steps) && IsTraffic(c, steps)
    requires c.workspace in Run(t, steps).subscriptions
    ensures source in c.events && IsLifecycle(source.eventType)
            && TermsOf(Run(t, steps).subscriptions[c.workspace], source)
  {
    var p := Played(FRESH, OwnAttempts(c, steps));
    OwnAttemptsAreOwn(c, steps);
    PlayedHasSource(c, FRESH, OwnAttempts(c, steps));
    RowIsPlayed(t, steps, c);
    assert p.row == Some(Run(t, steps).subscriptions[c.workspace]);
    source :| source in p.done && IsLifecycle(source.eventType) && TermsOf(p.row.value, source);
  }

  // ----- Schedules that end with a chosen event's terms -----

  /** A schedule that delivers `first`, then the newest event, then the rest. */
  lemma CompletedFrom(c: Campaign, first: DodoEvent, env: Env) returns (t: Tables, steps: seq<Step>)
    requires WellFormed(c) && OthersAreHarmless(c) && first in c.events && IsLifecycle(first.eventType)
    ensures Completed(c, t, steps) && MayCreate(first)
    ensures var created := CreatedRow(first, env);
            RowAt(Run(t, steps), c.workspace)
            == Some(if first == c.newest then created else UpdatedRow(created, c.newest, env))
  {
    var a, b := Attempt(first, env, false), Attempt(c.newest, env, false);
    assert IsComplete(first) && IsComplete(c.newest);
    var p := Advanced(FRESH, a);
    ReachFurther(c, [], FRESH, a);
    var start, q := [] + [a], p;
    if first != c.newest {
      assert Counts(p, first) && p.done == {first} && !Late(p, c.newest);
      ReachFurther(c, start, p, b);
      start, q := start + [b], Advanced(p, b);
    }
    var rest;
    t, steps, rest := CompletedRun(c, start, env);
    RowIsPlayed(t, steps, c);
    PlayedConcat(FRESH, start, rest);
    NothingAfterTheNewest(c, q, rest);
  }

  /** Once the newest event is done, no timely attempt changes the row. */
  lemma {:induction false} NothingAfterTheNewest(c: Campaign, p: Progress, attempts: seq<Attempt>)
    requires WellFormed(c) && OthersAreHarmless(c) && Reachable(c, p) && MarkedInOrder(c, p)
    requires AreOwn(c, attempts) && IsOrderly(c, p, attempts) && c.newest in p.done
    ensures Played(p, attempts).row == p.row
    decreases |attempts|
  {
    if attempts != [] {
      var a := attempts[0];
      OrderlyIsTimely(c, p, a);
      RowChangesExactly(p, a);
      AdvancedIsReachable(c, p, a);
      NothingAfterTheNewest(c, Advanced(p, a), attempts[1..]);
    }
  }

  // ----- Exactly when nothing depends on the order -----

  predicate HasTerms(t: Tables, c: Campaign, e: DodoEvent) {
    c.workspace in t.subscriptions && TermsOf(t.subscriptions[c.workspace], e)
  }

  predicate HasPlan(t: Tables, c: Campaign, plan: PaidPlan) {
    c.workspace in t.subscriptions && t.subscriptions[c.workspace].planId == plan
  }

  /** The newest event buys a plan without seats, or no Team event asks for another number. */
  predicate SeatsAreUnanimous(c: Campaign) {
    || c.newest.planHint == Some(Pro)
    || forall e :: e in c.events && IsLifecycle(e.eventType) && e.planHint == Some(Team) ==>
                     SeatCount(e) == SeatCount(c.newest)
  }

  lemma UnanimousSeatsConverge(t: Tables, steps: seq<Step>, c: Campaign)
    requires WellFormed(c) && OthersAreHarmless(c) && IsPlanEvent(c.newest)
    requires SeatsAreUnanimous(c) && Through(c, t, steps)
    ensures HasTerms(Run(t, steps), c, c.newest)
  {
    NewestEventDecides(t, steps, c);
    var source := FinalTerms(t, steps, c);
    assert IsComplete(source);
  }

  /** When the newest event is a creation or update: every schedule that brings it through
      ends with its seats, and already every schedule that brings all events through does,
      if and only if the seats are unanimous. */
  lemma SeatsConvergeExactly(c: Campaign)
    requires WellFormed(c) && OthersAreHarmless(c) && IsPlanEvent(c.newest)
    ensures (forall t, steps :: Through(c, t, steps) ==> HasTerms(Run(t, steps), c, c.newest))
            <==> SeatsAreUnanimous(c)
    ensures (forall t, steps :: Completed(c, t, steps) ==> HasTerms(Run(t, steps), c, c.newest))
            <==> SeatsAreUnanimous(c)
  {
    if SeatsAreUnanimous(c) {
      forall t, steps | Through(c, t, steps) ensures HasTerms(Run(t, steps), c, c.newest) {
        UnanimousSeatsConverge(t, steps, c);
      }
    } else {
      var e :| e in c.events && IsLifecycle(e.eventType) && e.planHint == Some(Team)
          && SeatCount(e) != SeatCount(c.newest);
      var env := Env(0, Settings("dodo", LiveMode, true, None, None, None, None, 7));
      assert IsComplete(c.newest) && c.newest.planHint == Some(Team);
      var t, steps := CompletedFrom(c, e, env);
      assert Completed(c, t, steps) && !HasTerms(Run(t, steps), c, c.newest);
    }
  }

  ghost predicate AlwaysEndsOn(c: Campaign, plan: PaidPlan) {
    forall t, steps :: Completed(c, t, steps) ==> HasPlan(Run(t, steps), c, plan)
  }

  /** All lifecycle events of the customer are for one plan. */
  predicate PlansAreUnanimous(c: Campaign) {
    forall e :: e in c.events && IsLifecycle(e.eventType) ==> e.planHint == c.newest.planHint
  }

  /** When the newest event is a pause or cancellation: all schedules that bring all events
      through end with one plan if and only if all events are for one plan; it is then the
      plan as soon as the newest is through. */
  lemma PlanOfAPauseConvergesExactly(c: Campaign)
    requires WellFormed(c) && OthersAreHarmless(c) && !IsPlanEvent(c.newest)
    ensures (exists plan :: AlwaysEndsOn(c, plan)) <==> PlansAreUnanimous(c)
    ensures PlansAreUnanimous(c) ==>
              && c.newest.planHint.Some?
              && forall t, steps :: Through(c, t, steps) ==> HasPlan(Run(t, steps), c, c.newest.planHint.value)
  {
    assert IsComplete(c.newest);
    if PlansAreUnanimous(c) {
      forall t, steps | Through(c, t, steps) ensures HasPlan(Run(t, steps), c, c.newest.planHint.value) {
        NewestEventDecides(t, steps, c);
        var source := FinalTerms(t, steps, c);
      }
      assert AlwaysEndsOn(c, c.newest.planHint.value);
    } else {
      var e :| e in c.events && IsLifecycle(e.eventType) && e.planHint != c.newest.planHint;
      var env := Env(0, Settings("dodo", LiveMode, true, None, None, None, None, 7));
      var t, steps := CompletedFrom(c, e, env);
      var u, others := CompletedFrom(c, c.newest, env);
      assert IsComplete(e);
      assert Completed(c, t, steps) && HasPlan(Run(t, steps), c, e.planHint.value);
      assert Completed(c, u, others) && HasPlan(Run(u, others), c, c.newest.planHint.value);
    }
  }
}
