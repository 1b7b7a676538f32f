/** When two concurrent workers can both deliver the same event, whether or not they write the
    subscription row: what a stale or a rowless event appends to the audit log is then there
    twice. */
module DoubleDelivery {
  import opened BillingTypes
  import opened DodoEvents
  import opened DodoProcessor
  import opened Idempotency
  import opened Lookup
  import opened Concurrency

  /** Before any worker starts: some possible answer of the lookup lets the event through, and
      if the event then creates a row, it carries a reference by which it finds it. */
  ghost predicate DeliversAgain(t: Tables, e: DodoEvent, env: Env) {
    exists found :: && IsFirstMatch(t.subscriptions, Dodo, e.subscriptionReference, e.customerReference, found)
                    && Intended(t, e, env, found).category.None?
                    && (Intended(t, e, env, found).inserts ==> HasReference(e))
  }

  ghost predicate CanDeliverTwice(s: State) {
    exists schedule, i, j :: Possible(s, schedule) && BothDelivered(Execute(s, schedule), i, j)
  }

  lemma UnsettledCanDeliverTwice(s: State, i: nat, j: nat) returns (schedule: Schedule)
    requires s.row.Some? && !IsSettled(s.row.value) && (forall k :: 0 <= k < |s.workers| ==> !HoldsRow(s.workers[k]))
    requires i < |s.workers| && j < |s.workers| && i != j && s.workers[i] == Start == s.workers[j]
    requires DeliversAgain(s.tables, s.event, s.env)
    ensures Possible(s, schedule) && BothDelivered(Execute(s, schedule), i, j)
  {
    var t, e := s.tables, s.event;
    var found :| && IsFirstMatch(t.subscriptions, Dodo, e.subscriptionReference, e.customerReference, found)
                 && Intended(t, e, s.env, found).category.None?
                 && (Intended(t, e, s.env, found).inserts ==> HasReference(e));
    if Intended(t, e, s.env, found).inserts {
      schedule := CreationIsFoundAndDelivered(s, i, j);
    } else {
      schedule := BothReadBothDeliver(s, i, j, found);
    }
  }

  lemma WritingAgainDeliversAgain(t: Tables, e: DodoEvent, env: Env)
    requires WritesAgain(t, e, env)
    ensures DeliversAgain(t, e, env)
  {
    if w :| w in t.subscriptions && Updates(t, e, Some(w))
            && IsFirstMatch(t.subscriptions, Dodo, e.subscriptionReference, e.customerReference, Some(w)) {
      assert Intended(t, e, env, Some(w)).category.None? && !Intended(t, e, env, Some(w)).inserts;
    } else {
      assert Intended(t, e, env, None).category.None?;
    }
  }

  /** Of an event that would not be delivered again: a delivery is the one creation. */
  ghost predicate DeliveriesWrite(s: State) {
    && (forall i :: 0 <= i < |s.workers| && (s.workers[i].Computed? || s.workers[i].Applied?) ==>
                      s.workers[i].write.category.None? ==> s.workers[i].write.row.Some?)
    && (forall i: nat :: HasDelivered(s, i) ==> WroteRow(s, i))
  }

  lemma ReadIsUnresolvedOrCreates(s: State, t: Tables, found: Option<WorkspaceId>)
    requires OneWrite(s, t) && !DeliversAgain(t, s.event, s.env)
    requires IsFirstMatch(s.tables.subscriptions, Dodo, s.event.subscriptionReference, s.event.customerReference, found)
    ensures var w := Intended(s.tables, s.event, s.env, found); w.category.None? ==> w.row.Some?
  {
    var e := s.event;
    if IsUntouched(s, t) {
      assert Intended(s.tables, e, s.env, found) == Intended(t, e, s.env, found);
    } else {
      assert Intended(t, e, s.env, None).category.None?;
      CreatedRowIsFound(t, e, s.env, found);
    }
  }

  lemma MoveKeepsDeliveriesWrite(s: State, n: State, i: nat, p: Phase)
    requires DeliveriesWrite(s) && i < |s.workers| && n.workers == s.workers[i := p]
    requires (p.Computed? || p.Applied?) && p.write.category.None? ==> p.write.row.Some?
    requires p.Ended? && p.how.Delivered? ==> p.how.wroteRow
    ensures DeliveriesWrite(n)
  {
    assert forall j :: 0 <= j < |s.workers| && j != i ==> n.workers[j] == s.workers[j];
    assert forall j: nat :: j != i && HasDelivered(n, j) ==> HasDelivered(s, j) && WroteRow(s, j);
  }

  lemma ActKeepsDeliveriesWrite(s: State, t: Tables, i: nat, a: Action)
    requires OneWrite(s, t) && DeliveriesWrite(s) && !DeliversAgain(t, s.event, s.env) && Enabled(s, i, a)
    ensures DeliveriesWrite(Act(s, i, a))
  {
    if a.Read? {
      ReadIsUnresolvedOrCreates(s, t, a.found);
    }
    MoveKeepsDeliveriesWrite(s, Act(s, i, a), i, Act(s, i, a).workers[i]);
  }

  lemma {:induction false} NothingToDeliverTwice(s: State, t: Tables, schedule: Schedule)
    requires OneWrite(s, t) && DeliveriesWrite(s) && Possible(s, schedule)
    requires !WritesAgain(t, s.event, s.env) && !DeliversAgain(t, s.event, s.env)
    ensures OneWrite(Execute(s, schedule), t) && DeliveriesWrite(Execute(s, schedule))
    decreases |schedule|
  {
    if schedule != [] {
      ActKeepsOneWrite(s, t, schedule[0].0, schedule[0].1);
      ActKeepsDeliveriesWrite(s, t, schedule[0].0, schedule[0].1);
      NothingToDeliverTwice(Act(s, schedule[0].0, schedule[0].1), t, schedule[1..]);
    }
  }

  /** When workers start together on one event, two of them can deliver it exactly when there
      are enough of them and some possible answer of the lookup lets the event through, other
      than to create a row it cannot find again. */
  lemma DeliveredTwiceExactly(s: State)
    requires AllAtStart(s)
    ensures CanDeliverTwice(s) <==> EnoughWorkers(s) && DeliversAgain(s.tables, s.event, s.env)
  {
    if !EnoughWorkers(s) {
      forall schedule, i: nat, j: nat | Possible(s, schedule) ensures !BothDelivered(Execute(s, schedule), i, j) {
        TooFewToDeliverTwice(s, schedule, i, j);
      }
    } else if !DeliversAgain(s.tables, s.event, s.env) {
      if WritesAgain(s.tables, s.event, s.env) {
        WritingAgainDeliversAgain(s.tables, s.event, s.env);
      }
      forall schedule, i: nat, j: nat | Possible(s, schedule) ensures !BothDelivered(Execute(s, schedule), i, j) {
        NothingToDeliverTwice(s, s.tables, schedule);
      }
    } else if s.row.Some? {
      var schedule := UnsettledCanDeliverTwice(s, 0, 1);
      assert BothDelivered(Execute(s, schedule), 0, 1);
    } else {
      var first := FailFirst(s, 0);
      var second := UnsettledCanDeliverTwice(Execute(s, first), 1, 2);
      ExecuteConcat(s, first, second);
      assert BothDelivered(Execute(s, first + second), 1, 2);
    }
  }

  /** What two deliveries of an event that is out of date for the row it finds leave behind:
      the row as it is, and two entries for the one event. */
  lemma StaleEventIsRecordedTwice(s: State, i: nat, j: nat, w: WorkspaceId) returns (schedule: Schedule)
    requires s.row.Some? && !IsSettled(s.row.value) && AllAtStart(s)
    requires i < |s.workers| && j < |s.workers| && i != j
    requires IsFirstMatch(s.tables.subscriptions, Dodo, s.event.subscriptionReference, s.event.customerReference,
                          Some(w))
    requires s.event.eventType != Unknown && Outdated(s.tables, s.event, s.tables.subscriptions[w])
    ensures Possible(s, schedule) && BothDelivered(Execute(s, schedule), i, j)
    ensures var n, stale := Execute(s, schedule).tables, StaleEntry(w, Dodo, s.event.eventType);
            n.subscriptions == s.tables.subscriptions && n.audit == s.tables.audit + [stale] + [stale]
  {
    schedule := BothReadBothDeliver(s, i, j, Some(w));
  }
}
