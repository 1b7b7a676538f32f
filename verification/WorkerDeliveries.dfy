/** The workers of the interleaving model against the specification of a delivery: what a lone
    worker can do is exactly one delivery, and among others every commit leaves the status a
    delivery leaves. */
module WorkerDeliveries {
  import opened BillingTypes
  import opened DodoEvents
  import opened DodoProcessor
  import opened Idempotency
  import opened Lookup
  import opened Concurrency
  import Delivery
  import DeliveryShape

  predicate IsAnswer(t: Tables, e: DodoEvent, found: Option<WorkspaceId>) {
    IsFirstMatch(t.subscriptions, Dodo, e.subscriptionReference, e.customerReference, found)
  }

  lemma SomeAnswer(t: Tables, e: DodoEvent) returns (found: Option<WorkspaceId>)
    ensures IsAnswer(t, e, found)
  {
    FirstMatchExists(t.subscriptions, Dodo, e.subscriptionReference, e.customerReference);
    found :| IsFirstMatch(t.subscriptions, Dodo, e.subscriptionReference, e.customerReference, found);
  }

  // ----- A lone worker -----

  /** The tables with the event's row of the log, which the state keeps apart. */
  function Whole(t: Tables, e: DodoEvent, row: Option<ProcessingStatus>): Tables {
    if row.None? then t else t.(log := t.log[Key(e) := FreshRow(e).(processingStatus := row.value)])
  }

  /** The ending of a worker that stands for the outcome of a delivery. */
  predicate Means(how: Ending, outcome: Outcome) {
    match outcome
    case Delivered => how.Delivered?
    case Acknowledged => how == Ending.Delivered(false)
    case Duplicate => how == Ending.Duplicate
    case Unresolved => how == FailedAttempt
    case Raised => how == FailedAttempt
  }

  /** From `s` to `n`: the tables, the event's status and the ending are those of this delivery. */
  predicate IsDelivery(s: State, n: State, how: Ending, found: Option<WorkspaceId>, raised: bool)
    requires IsAnswer(s.tables, s.event, found)
  {
    var (d, outcome) := Process(Whole(s.tables, s.event, s.row), s.event, s.env, found, raised);
    && Key(s.event) in d.log
    && n.row == Some(d.log[Key(s.event)].processingStatus)
    && n.tables == d.(log := s.tables.log)
    && Means(how, outcome)
  }

  ghost predicate IsSomeDelivery(s: State, n: State, how: Ending) {
    exists found, raised :: IsAnswer(s.tables, s.event, found) && IsDelivery(s, n, how, found, raised)
  }

  predicate IsUnsettled(s: State) {
    s.row.Some? ==> !IsSettled(s.row.value)
  }

  ghost predicate IsIntended(s: State, w: Write) {
    exists found :: IsAnswer(s.tables, s.event, found) && w == Intended(s.tables, s.event, s.env, found)
  }

  /** Where the one worker of `n` is, when `s` was the state before it started. */
  ghost predicate IsUnderway(s: State, p: Phase) {
    match p
    case Start => true
    case SawNothing => s.row.None?
    case SawSettled => !IsUnsettled(s)
    case Holding(inserted) => IsUnsettled(s)
    case Computed(_, w) => IsUnsettled(s) && IsIntended(s, w)
    case Applied(_, w) => IsUnsettled(s) && IsIntended(s, w)
    case RolledBack => IsUnsettled(s)
    case SawNothingAgain => s.row.None?
    case Recording(_) => IsUnsettled(s)
    case Ended(_) => false
  }

  ghost predicate IsAlone(s: State, n: State) {
    && |n.workers| == 1 && n.event == s.event && n.env == s.env
    && if n.workers[0].Ended? && !n.workers[0].how.Crashed? then IsSomeDelivery(s, n, n.workers[0].how)
       else n.row == s.row && n.tables == s.tables && (n.workers[0] == Ended(Crashed) || IsUnderway(s, n.workers[0]))
  }

  lemma CommitIsDelivery(s: State, n: State, w: Write, found: Option<WorkspaceId>)
    requires Key(s.event) !in s.tables.log && IsUnsettled(s) && IsAnswer(s.tables, s.event, found)
    requires w == Intended(s.tables, s.event, s.env, found)
    requires n.row == Some(if w.category.Some? then Failed else Processed)
    requires n.tables == if w.category.Some? then s.tables else Performed(s.tables, w)
    ensures IsDelivery(s, n, if w.category.Some? then FailedAttempt else Ending.Delivered(w.row.Some?), found, false)
  {
    var e, begun := s.event, Begin(Whole(s.tables, s.event, s.row), s.event);
    if e.eventType == Unknown {
      assert s.tables.audit + [] == s.tables.audit;
    } else {
      IntendedIsApplied(s.tables, e, s.env, found);
      Delivery.ApplyIgnoresOwnRow(s.tables, begun.log, e, s.env, found);
      assert begun == s.tables.(log := begun.log);
    }
  }

  lemma FailureIsDelivery(s: State, n: State, found: Option<WorkspaceId>)
    requires Key(s.event) !in s.tables.log && IsUnsettled(s) && IsAnswer(s.tables, s.event, found)
    requires n.row == Some(Failed) && n.tables == s.tables
    ensures IsDelivery(s, n, FailedAttempt, found, true)
  {
  }

  lemma RepeatIsDelivery(s: State, n: State, found: Option<WorkspaceId>, raised: bool)
    requires Key(s.event) !in s.tables.log && !IsUnsettled(s) && IsAnswer(s.tables, s.event, found)
    requires n.row == Some(DuplicateIgnored) && n.tables == s.tables
    ensures IsDelivery(s, n, Ending.Duplicate, found, raised)
  {
  }

  lemma ActStaysAlone(s: State, n: State, a: Action)
    requires Key(s.event) !in s.tables.log && IsAlone(s, n) && Enabled(n, 0, a)
    ensures IsAlone(s, Act(n, 0, a))
  {
    var m, p := Act(n, 0, a), n.workers[0];
    match a
    case CommitProcessed =>
      var found :| IsAnswer(s.tables, s.event, found) && p.write == Intended(s.tables, s.event, s.env, found);
      CommitIsDelivery(s, m, p.write, found);
    case CommitUnresolved =>
      var found :| IsAnswer(s.tables, s.event, found) && p.write == Intended(s.tables, s.event, s.env, found);
      CommitIsDelivery(s, m, p.write, found);
    case CommitFailed =>
      var found := SomeAnswer(s.tables, s.event);
      FailureIsDelivery(s, m, found);
    case MarkDuplicate =>
      var found := SomeAnswer(s.tables, s.event);
      RepeatIsDelivery(s, m, found, false);
    case Read(found) => assert IsAnswer(s.tables, s.event, found);
    case _ =>
  }

  /** Whatever a lone worker does, crashing and raising included: it commits nothing before it
      ends, nothing when it crashes, and otherwise exactly what one delivery of the event
      leaves, the status of its row of the log included. */
  lemma {:induction false} LoneWorkerDelivers(s: State, n: State, schedule: Schedule)
    requires Key(s.event) !in s.tables.log && IsAlone(s, n) && Possible(n, schedule)
    ensures IsAlone(s, Execute(n, schedule))
    decreases |schedule|
  {
    if schedule != [] {
      ActStaysAlone(s, n, schedule[0].1);
      LoneWorkerDelivers(s, Act(n, schedule[0].0, schedule[0].1), schedule[1..]);
    }
  }

  /** And it can be any delivery: for every answer of the lookup and every choice of raising or
      not, some schedule of the lone worker ends in what that delivery leaves. */
  lemma LoneWorkerCan(s: State, found: Option<WorkspaceId>, raised: bool) returns (schedule: Schedule)
    requires Key(s.event) !in s.tables.log && s.workers == [Start] && IsAnswer(s.tables, s.event, found)
    ensures Possible(s, schedule)
    ensures var n := Execute(s, schedule);
            && |n.workers| == 1 && n.workers[0].Ended?
            && IsDelivery(s, n, n.workers[0].how, found, raised)
  {
    if !IsUnsettled(s) {
      schedule := [(0, Select), (0, MarkDuplicate)];
      Two(s, (0, Select), (0, MarkDuplicate));
      RepeatIsDelivery(s, Execute(s, schedule), found, raised);
      return;
    }
    var held := if s.row.None? then [(0, Select), (0, Insert)] else [(0, Select)];
    var s1 := if s.row.None? then Act(Act(s, 0, Select), 0, Insert) else Act(s, 0, Select);
    assert Possible(s, held) && Execute(s, held) == s1 by {
      if s.row.None? {
        Two(s, (0, Select), (0, Insert));
      } else {
        Follow(s, (0, Select), []);
        assert held == [(0, Select)] + [];
      }
    }
    var rest;
    if raised {
      rest := RaiseAndRecord(s1);
      FailureIsDelivery(s, Execute(s1, rest), found);
    } else {
      var w := Intended(s.tables, s.event, s.env, found);
      rest := ReadAndCommit(s1, found);
      CommitIsDelivery(s, Execute(s1, rest), w, found);
    }
    ExecuteConcat(s, held, rest);
    schedule := held + rest;
  }

  lemma Two(s: State, a: (nat, Action), b: (nat, Action))
    requires Enabled(s, a.0, a.1) && Enabled(Act(s, a.0, a.1), b.0, b.1)
    ensures Possible(s, [a, b]) && Execute(s, [a, b]) == Act(Act(s, a.0, a.1), b.0, b.1)
  {
    var n := Act(s, a.0, a.1);
    Follow(n, b, []);
    Follow(s, a, [b] + []);
    assert [a] + ([b] + []) == [a, b];
    assert Execute(Act(n, b.0, b.1), []) == Act(n, b.0, b.1);
  }

  lemma RaiseAndRecord(s: State) returns (schedule: Schedule)
    requires |s.workers| == 1 && s.workers[0].Holding?
    requires s.workers[0].inserted ==> s.row.None?
    requires !s.workers[0].inserted ==> s.row.Some?
    ensures Possible(s, schedule)
    ensures Execute(s, schedule) == s.(row := Some(Failed), workers := [Ended(FailedAttempt)])
  {
    var s1 := Act(s, 0, Raise);
    var s2 := Act(s1, 0, Select);
    if s.row.None? {
      var s3 := Act(s2, 0, Insert);
      Two(s2, (0, Insert), (0, CommitFailed));
      schedule := [(0, Insert), (0, CommitFailed)];
    } else {
      Follow(s2, (0, CommitFailed), []);
      schedule := [(0, CommitFailed)] + [];
    }
    Two(s, (0, Raise), (0, Select));
    ExecuteConcat(s, [(0, Raise), (0, Select)], schedule);
    schedule := [(0, Raise), (0, Select)] + schedule;
  }

  lemma ReadAndCommit(s: State, found: Option<WorkspaceId>) returns (schedule: Schedule)
    requires |s.workers| == 1 && s.workers[0].Holding? && IsAnswer(s.tables, s.event, found)
    ensures Possible(s, schedule)
    ensures var n, w := Execute(s, schedule), Intended(s.tables, s.event, s.env, found);
            n == s.(row := Some(if w.category.Some? then Failed else Processed),
                    tables := if w.category.Some? then s.tables else Performed(s.tables, w),
                    workers := [Ended(if w.category.Some? then FailedAttempt else Ending.Delivered(w.row.Some?))])
  {
    var w := Intended(s.tables, s.event, s.env, found);
    var last := if w.category.Some? then CommitUnresolved else CommitProcessed;
    var s1 := Act(s, 0, Read(found));
    var s2 := Act(s1, 0, Flush);
    Follow(s2, (0, last), []);
    var r2: Schedule := [(0, last)] + [];
    Follow(s1, (0, Flush), r2);
    var r1 := [(0, Flush)] + r2;
    Follow(s, (0, Read(found)), r1);
    schedule := [(0, Read(found))] + r1;
  }

  // ----- Among other workers -----

  /** The write is what a delivery of the event would make of these tables. */
  predicate IsReadFrom(s: State, w: Write, t: Tables, found: Option<WorkspaceId>) {
    t.log == s.tables.log && IsAnswer(t, s.event, found) && w == Intended(t, s.event, s.env, found)
  }

  ghost predicate AllAreRead(s: State) {
    forall i :: 0 <= i < |s.workers| && (s.workers[i].Computed? || s.workers[i].Applied?) ==>
                  exists t, found :: IsReadFrom(s, s.workers[i].write, t, found)
  }

  lemma {:induction false} ExecuteKeepsRead(s: State, schedule: Schedule)
    requires AllAreRead(s) && Possible(s, schedule)
    ensures var n := Execute(s, schedule);
            AllAreRead(n) && n.event == s.event && n.env == s.env && n.tables.log == s.tables.log
    decreases |schedule|
  {
    if schedule != [] {
      var (i, a) := schedule[0];
      var n := Act(s, i, a);
      forall j | 0 <= j < |n.workers| && (n.workers[j].Computed? || n.workers[j].Applied?)
        ensures exists t, found :: IsReadFrom(n, n.workers[j].write, t, found)
      {
        if j == i && a.Read? {
          assert IsReadFrom(n, n.workers[j].write, s.tables, a.found);
        } else {
          var t, found :| IsReadFrom(s, s.workers[j].write, t, found);
          assert IsReadFrom(n, n.workers[j].write, t, found);
        }
      }
      ExecuteKeepsRead(n, schedule[1..]);
    }
  }

  /** The status a delivery that began with these tables and this status leaves. */
  function StatusLeft(t: Tables, e: DodoEvent, env: Env, row: Option<ProcessingStatus>, found: Option<WorkspaceId>,
                      raised: bool): ProcessingStatus
    requires IsAnswer(t, e, found)
  {
    DeliveryShape.DeliveryLogRow(Whole(t, e, row), e, env, found, raised);
    After(Whole(t, e, row), e, env, found, raised).log[Key(e)].processingStatus
  }

  /** Over every interleaving of any number of workers, whatever fails: a commit leaves on the
      event's row of the log the status that a delivery from the tables its worker has read
      leaves, a failure mark that of a raising delivery, and a duplicate mark that of a
      delivery of a completed event. Nothing else changes the row. */
  lemma CommitsLeaveDeliveryStatus(s: State, schedule: Schedule, i: nat, a: Action)
    requires AllAtStart(s) && Key(s.event) !in s.tables.log
    requires Possible(s, schedule) && Enabled(Execute(s, schedule), i, a)
    ensures var n := Execute(s, schedule);
            var e, m, p := n.event, Act(n, i, a), n.workers[i];
            match a
            case CommitProcessed => exists t, found :: IsReadFrom(n, p.write, t, found)
                                                       && m.row == Some(StatusLeft(t, e, n.env, None, found, false))
            case CommitUnresolved => exists t, found :: IsReadFrom(n, p.write, t, found)
                                                        && m.row == Some(StatusLeft(t, e, n.env, None, found, false))
            case CommitFailed => forall found :: IsAnswer(n.tables, e, found) ==>
                                   m.row == Some(StatusLeft(n.tables, e, n.env, None, found, true))
            case MarkDuplicate => forall found :: IsAnswer(n.tables, e, found) ==>
                                    m.row == Some(StatusLeft(n.tables, e, n.env, Some(Processed), found, false))
            case _ => m.row == n.row && m.tables == n.tables
  {
    ExecuteKeepsRead(s, schedule);
    var n := Execute(s, schedule);
    if a == CommitProcessed || a == CommitUnresolved {
      var t, found :| IsReadFrom(n, n.workers[i].write, t, found);
      StatusOfIntended(t, s.event, s.env, found);
    } else if a == CommitFailed || a == MarkDuplicate {
      forall found | IsAnswer(n.tables, s.event, found)
        ensures StatusLeft(n.tables, s.event, s.env, None, found, true) == Failed
        ensures StatusLeft(n.tables, s.event, s.env, Some(Processed), found, false) == DuplicateIgnored
      {
        DeliveryShape.DeliveryLogRow(n.tables, s.event, s.env, found, true);
        DeliveryShape.DeliveryLogRow(Whole(n.tables, s.event, Some(Processed)), s.event, s.env, found, false);
      }
    }
  }

  lemma StatusOfIntended(t: Tables, e: DodoEvent, env: Env, found: Option<WorkspaceId>)
    requires Key(e) !in t.log && IsAnswer(t, e, found)
    ensures StatusLeft(t, e, env, None, found, false)
            == if Intended(t, e, env, found).category.Some? then Failed else Processed
  {
    DeliveryShape.DeliveryLogRow(t, e, env, found, false);
  }
}
