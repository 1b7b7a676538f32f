/** Concurrent deliveries of one event: any number of workers, each in a transaction of its
    own, interleaving the reads, inserts, updates and commits of a delivery. A transaction
    reads what is committed; a row it inserted or updated keeps others from doing the same
    until it ends. All workers read the clock at the same time. */
module Concurrency {
  import opened BillingTypes
  import opened DodoEvents
  import opened DodoProcessor
  import opened Idempotency
  import opened Lookup
  import Delivery
  import DeliveryShape

  // ----- What an attempt writes -----

  /** The subscription row an attempt writes, if any, whether it inserts it, the entries it
      appends, and the category under which it reports the event, if any. */
  datatype Write = Write(
    row: Option<(WorkspaceId, Subscription)>,
    inserts: bool,
    entries: seq<AuditEvent>,
    category: Option<ErrorCategory>)

  const NOTHING := Write(None, false, [], None)

  /** What an attempt will write after it read these tables. */
  function Intended(t: Tables, e: DodoEvent, env: Env, found: Option<WorkspaceId>): Write
    requires found.Some? ==> found.value in t.subscriptions
  {
    if e.eventType == Unknown then NOTHING
    else match found
      case None =>
        if CanCreate(t, e) then
          var w, row := e.workspaceHint.value, CreatedRow(e, env);
          Write(Some((w, row)), true, [ActivationEntry(w, row)], None)
        else NOTHING.(category := if IsLifecycle(e.eventType) then Some(UnknownReference) else None)
      case Some(w) =>
        var row := t.subscriptions[w];
        if Outdated(t, e, row) then NOTHING.(entries := [StaleEntry(w, Dodo, e.eventType)])
        else
          var next := UpdatedRow(row, e, env);
          Write(if Mutates(e) then Some((w, next)) else None, false,
                EventEntries(w, row, next, e, env) + StatusEntry(w, Dodo, row.status, next.status), None)
  }

  function Performed(t: Tables, w: Write): Tables {
    t.(subscriptions := if w.row.Some? then t.subscriptions[w.row.value.0 := w.row.value.1] else t.subscriptions,
       audit := t.audit + w.entries)
  }

  /** Performed on the tables it was read from, it is the effect of one delivery. */
  lemma IntendedIsApplied(t: Tables, e: DodoEvent, env: Env, found: Option<WorkspaceId>)
    requires found.Some? ==> found.value in t.subscriptions
    requires e.eventType != Unknown
    ensures (Performed(t, Intended(t, e, env, found)), Intended(t, e, env, found).category) == Apply(t, e, env, found)
  {
    assert t.audit + [] == t.audit;
    if found.Some? && !Outdated(t, e, t.subscriptions[found.value]) {
      var w, row := found.value, t.subscriptions[found.value];
      var next := UpdatedRow(row, e, env);
      var entries, status := EventEntries(w, row, next, e, env), StatusEntry(w, Dodo, row.status, next.status);
      assert t.audit + (entries + status) == t.audit + entries + status;
      assert !Mutates(e) ==> t.subscriptions[w := row] == t.subscriptions;
    }
  }

  // ----- The workers -----

  datatype Ending = Delivered(wroteRow: bool) | Duplicate | FailedAttempt | Crashed

  /** Where a worker is. `inserted` says whether its own transaction inserted the row of the
      webhook log, still uncommitted, or whether it read a committed one. */
  datatype Phase =
    | Start
    | SawNothing
    | SawSettled
    | Holding(inserted: bool)
    | Computed(inserted: bool, write: Write)
    | Applied(inserted: bool, write: Write)
    | RolledBack
    | SawNothingAgain
    | Recording(inserted: bool)
    | Ended(how: Ending)

  /** The event and the clock and settings all workers see; the committed status of the
      event's row of the log, if there is one; the committed tables, whose log stands for the
      rows of other events; and the workers. */
  datatype State = State(
    event: DodoEvent,
    env: Env,
    row: Option<ProcessingStatus>,
    tables: Tables,
    workers: seq<Phase>)

  datatype Action =
    | Select | Insert | MarkDuplicate
    | Read(found: Option<WorkspaceId>) | Flush
    | CommitProcessed | CommitUnresolved | Raise | CommitFailed | Crash

  /** The transaction of this worker holds an uncommitted row under the log's unique key. */
  predicate HoldsInsert(p: Phase) {
    (p.Holding? || p.Computed? || p.Applied? || p.Recording?) && p.inserted
  }

  /** The worker works on a row of the log that was committed unsettled. */
  predicate HoldsCommitted(p: Phase) {
    (p.Holding? || p.Computed? || p.Applied?) && !p.inserted
  }

  /** An insert under the log's unique key waits while another transaction holds one. */
  predicate Blocked(s: State, i: nat) {
    exists j :: 0 <= j < |s.workers| && j != i && HoldsInsert(s.workers[j])
  }

  /** The transaction of this worker has written a subscription row, not yet committed. */
  predicate HoldsRow(p: Phase) {
    p.Applied? && p.write.row.Some?
  }

  /** So does a write to the subscription row, be it an insert under the unique workspace or
      an update, while another transaction has written it. */
  predicate RowIsLocked(s: State, i: nat, w: Write) {
    w.row.Some? && exists j :: && 0 <= j < |s.workers| && j != i && HoldsRow(s.workers[j])
                               && s.workers[j].write.row.value.0 == w.row.value.0
  }

  predicate Enabled(s: State, i: nat, a: Action) {
    && i < |s.workers|
    && var p := s.workers[i];
       match a
       case Select => p == Start || p == RolledBack
       case Insert => (p == SawNothing || p == SawNothingAgain) && !Blocked(s, i)
       case MarkDuplicate => p == SawSettled
       case Read(found) =>
         && p.Holding?
         && IsFirstMatch(s.tables.subscriptions, Dodo, s.event.subscriptionReference, s.event.customerReference, found)
       case Flush => p.Computed? && !RowIsLocked(s, i, p.write)
       case CommitProcessed => p.Applied? && p.write.category.None?
       case CommitUnresolved => p.Applied? && p.write.category.Some?
       case Raise => p.Holding? || p.Computed? || p.Applied?
       case CommitFailed => p.Recording?
       case Crash => !p.Ended?
  }

  function Move(s: State, i: nat, p: Phase): State
    requires i < |s.workers|
  {
    s.(workers := s.workers[i := p])
  }

  /** What a worker does with a committed row of the log it found. */
  function Found(status: ProcessingStatus): Phase {
    if IsSettled(status) then SawSettled else Holding(false)
  }

  function Act(s: State, i: nat, a: Action): State
    requires Enabled(s, i, a)
  {
    var p := s.workers[i];
    match a
    case Select =>
      if p == Start then Move(s, i, if s.row.None? then SawNothing else Found(s.row.value))
      else Move(s, i, if s.row.None? then SawNothingAgain else Recording(false))
    case Insert => // the unique key refuses a second row; the loser reads the winner's
      if p == SawNothing then Move(s, i, if s.row.None? then Holding(true) else Found(s.row.value))
      else Move(s, i, Recording(s.row.None?))
    case MarkDuplicate => Move(s, i, Ended(Ending.Duplicate)).(row := Some(DuplicateIgnored))
    case Read(found) => Move(s, i, Computed(p.inserted, Intended(s.tables, s.event, s.env, found)))
    case Flush => // a second row for the workspace violates its unique key, and raises
      if p.write.row.Some? && p.write.inserts && p.write.row.value.0 in s.tables.subscriptions
      then Move(s, i, RolledBack)
      else Move(s, i, Applied(p.inserted, p.write))
    case CommitProcessed =>
      Move(s, i, Ended(Ending.Delivered(p.write.row.Some?)))
      .(row := Some(Processed), tables := Performed(s.tables, p.write))
    case CommitUnresolved => Move(s, i, Ended(FailedAttempt)).(row := Some(Failed))
    case Raise => Move(s, i, RolledBack)
    case CommitFailed => Move(s, i, Ended(FailedAttempt)).(row := Some(Failed))
    case Crash => Move(s, i, Ended(Crashed))
  }

  type Schedule = seq<(nat, Action)>

  predicate Possible(s: State, schedule: Schedule)
    decreases |schedule|
  {
    schedule == []
    || (Enabled(s, schedule[0].0, schedule[0].1) && Possible(Act(s, schedule[0].0, schedule[0].1), schedule[1..]))
  }

  function Execute(s: State, schedule: Schedule): State
    requires Possible(s, schedule)
    decreases |schedule|
  {
    if schedule == [] then s else Execute(Act(s, schedule[0].0, schedule[0].1), schedule[1..])
  }

  predicate HasDelivered(s: State, i: nat) {
    i < |s.workers| && s.workers[i].Ended? && s.workers[i].how.Delivered?
  }

  predicate HasFailed(s: State, i: nat) {
    i < |s.workers| && s.workers[i] == Ended(FailedAttempt)
  }

  predicate KnowsSettled(s: State, i: nat) {
    i < |s.workers| && (s.workers[i] == SawSettled || s.workers[i] == Ended(Ending.Duplicate))
  }

  ghost predicate NoneFailed(s: State) {
    forall i: nat :: !HasFailed(s, i)
  }

  // ----- While no attempt has ended failed -----

  /** A write some delivery of the event could make of these tables. */
  ghost predicate Offers(t: Tables, e: DodoEvent, env: Env, w: Write) {
    exists found :: && IsFirstMatch(t.subscriptions, Dodo, e.subscriptionReference, e.customerReference, found)
                    && w == Intended(t, e, env, found)
  }

  ghost predicate IsOutcome(t: Tables, e: DodoEvent, env: Env, n: Tables) {
    exists w :: Offers(t, e, env, w) && w.category.None? && n == Performed(t, w)
  }

  ghost predicate OneAtATime(s: State) {
    && (forall i, j :: 0 <= i < j < |s.workers| ==> !(HoldsInsert(s.workers[i]) && HoldsInsert(s.workers[j])))
    && (forall i :: 0 <= i < |s.workers| ==> !HoldsCommitted(s.workers[i]))
    && (s.row.Some? ==> IsSettled(s.row.value) && forall i :: 0 <= i < |s.workers| ==> !HoldsInsert(s.workers[i]))
    && (forall i: nat :: HasDelivered(s, i) || KnowsSettled(s, i) ==> s.row.Some?)
    && (forall i: nat, j: nat :: HasDelivered(s, i) && HasDelivered(s, j) ==> i == j)
    && (s.row.Some? ==> exists i: nat :: HasDelivered(s, i))
  }

  /** What holds at every moment of such an execution that began with the tables `t`. */
  ghost predicate Serialized(s: State, t: Tables) {
    && OneAtATime(s)
    && (s.row.None? ==> s.tables == t)
    && (s.row.Some? ==> IsOutcome(t, s.event, s.env, s.tables))
    && (forall i :: 0 <= i < |s.workers| && (s.workers[i].Computed? || s.workers[i].Applied?) ==>
                      Offers(t, s.event, s.env, s.workers[i].write))
  }

  predicate Fresh(s: State) {
    s.row.None? && forall i :: 0 <= i < |s.workers| ==> s.workers[i] == Start
  }

  lemma DeliveryIsTheFirst(s: State, i: nat)
    requires OneAtATime(s) && Enabled(s, i, CommitProcessed)
    ensures OneAtATime(Act(s, i, CommitProcessed))
  {
    var n := Act(s, i, CommitProcessed);
    assert forall j :: 0 <= j < |s.workers| && j != i ==> n.workers[j] == s.workers[j];
    assert HoldsInsert(s.workers[i]);
    assert s.row.None?;
    assert HasDelivered(n, i);
    assert forall j: nat :: j != i && HasDelivered(n, j) ==> HasDelivered(s, j);
  }

  /** One worker moved on without delivering anything. */
  lemma MoveKeepsOneAtATime(s: State, n: State, i: nat, p: Phase)
    requires OneAtATime(s) && i < |s.workers| && n.workers == s.workers[i := p]
    requires n.row == s.row || (s.row.Some? && n.row == Some(DuplicateIgnored))
    requires !HoldsCommitted(p) && !s.workers[i].Ended? && (p.Ended? ==> !p.how.Delivered?)
    requires HoldsInsert(p) ==> HoldsInsert(s.workers[i]) || (s.row.None? && !Blocked(s, i))
    requires p == SawSettled || p == Ended(Ending.Duplicate) ==> s.row.Some?
    ensures OneAtATime(n)
  {
    assert forall j :: 0 <= j < |s.workers| && j != i ==> n.workers[j] == s.workers[j];
    assert forall j: nat :: HasDelivered(n, j) <==> HasDelivered(s, j);
    assert forall j: nat :: j != i && KnowsSettled(n, j) ==> KnowsSettled(s, j);
  }

  lemma ActKeepsOneAtATime(s: State, i: nat, a: Action)
    requires OneAtATime(s) && Enabled(s, i, a)
    requires NoneFailed(Act(s, i, a))
    ensures OneAtATime(Act(s, i, a))
  {
    var n := Act(s, i, a);
    assert !HasFailed(n, i);
    if a == CommitProcessed {
      DeliveryIsTheFirst(s, i);
    } else {
      assert a == MarkDuplicate ==> KnowsSettled(s, i);
      MoveKeepsOneAtATime(s, n, i, n.workers[i]);
    }
  }

  lemma ActKeepsSerialized(s: State, t: Tables, i: nat, a: Action)
    requires Serialized(s, t) && Enabled(s, i, a)
    requires NoneFailed(Act(s, i, a))
    ensures Serialized(Act(s, i, a), t)
  {
    var n := Act(s, i, a);
    ActKeepsOneAtATime(s, i, a);
    assert !HasFailed(n, i);
    assert forall j :: 0 <= j < |s.workers| && j != i ==> n.workers[j] == s.workers[j];
    if a == CommitProcessed {
      assert HoldsInsert(s.workers[i]);
      assert Offers(t, s.event, s.env, s.workers[i].write);
    } else if a == MarkDuplicate {
      assert KnowsSettled(s, i);
    } else if a.Read? {
      assert HoldsInsert(s.workers[i]);
      assert Offers(t, s.event, s.env, n.workers[i].write);
    }
  }

  lemma {:induction false} FailureStays(s: State, schedule: Schedule)
    requires Possible(s, schedule) && NoneFailed(Execute(s, schedule))
    ensures NoneFailed(s)
    decreases |schedule|
  {
    if schedule != [] {
      var n := Act(s, schedule[0].0, schedule[0].1);
      FailureStays(n, schedule[1..]);
      forall i: nat ensures !HasFailed(s, i) {
        if HasFailed(s, i) {
          assert HasFailed(n, i);
        }
      }
    }
  }

  lemma {:induction false} ExecuteKeepsSerialized(s: State, t: Tables, schedule: Schedule)
    requires Serialized(s, t)
    requires Possible(s, schedule) && NoneFailed(Execute(s, schedule))
    ensures Serialized(Execute(s, schedule), t)
    ensures Execute(s, schedule).event == s.event && Execute(s, schedule).env == s.env
    decreases |schedule|
  {
    if schedule != [] {
      var n := Act(s, schedule[0].0, schedule[0].1);
      FailureStays(n, schedule[1..]);
      ActKeepsSerialized(s, t, schedule[0].0, schedule[0].1);
      ExecuteKeepsSerialized(n, t, schedule[1..]);
    }
  }

  /** Over every interleaving of any number of workers delivering the same new event, as
      long as no attempt has ended failed: at most one worker has delivered it, one exactly
      when the event has a committed row, which is then settled; at most one transaction
      holds an uncommitted row under the key; no worker works on a row it did not insert. */
  lemma AppliedAtMostOnce(s: State, schedule: Schedule)
    requires Fresh(s) && Possible(s, schedule)
    requires NoneFailed(Execute(s, schedule))
    ensures var n := Execute(s, schedule);
            && (forall i: nat, j: nat :: HasDelivered(n, i) && HasDelivered(n, j) ==> i == j)
            && (n.row.Some? <==> exists i: nat :: HasDelivered(n, i))
            && (forall i, j :: 0 <= i < j < |n.workers| ==> !(HoldsInsert(n.workers[i]) && HoldsInsert(n.workers[j])))
            && (n.row.Some? ==> IsSettled(n.row.value))
            && (n.row.Some? ==> forall i :: 0 <= i < |n.workers| ==> !HoldsInsert(n.workers[i]))
            && (forall i :: 0 <= i < |n.workers| ==> !HoldsCommitted(n.workers[i]))
  {
    ExecuteKeepsSerialized(s, s.tables, schedule);
  }

  /** And the committed tables are those the execution began with, or those one delivery on
      its own makes of them, and the event's row of the log is as that delivery leaves it, or
      marked a duplicate since: the interleaving is equivalent to delivering the event once. */
  lemma InterleavingIsOneDelivery(s: State, schedule: Schedule)
    requires Fresh(s) && Possible(s, schedule)
    requires NoneFailed(Execute(s, schedule))
    requires Key(s.event) !in s.tables.log
    ensures var n, t, e := Execute(s, schedule), s.tables, s.event;
            if n.row.None? then n.tables == t
            else exists found :: && IsFirstMatch(t.subscriptions, Dodo, e.subscriptionReference,
                                                 e.customerReference, found)
                                 && n.tables == After(t, e, s.env, found, false).(log := t.log)
                                 && Key(e) in After(t, e, s.env, found, false).log
                                 && After(t, e, s.env, found, false).log[Key(e)].processingStatus == Processed
                                 && n.row.value in {Processed, DuplicateIgnored}
  {
    var n, t, e := Execute(s, schedule), s.tables, s.event;
    ExecuteKeepsSerialized(s, t, schedule);
    if n.row.Some? {
      var w :| Offers(t, e, s.env, w) && w.category.None? && n.tables == Performed(t, w);
      var found :| IsFirstMatch(t.subscriptions, Dodo, e.subscriptionReference, e.customerReference, found)
                   && w == Intended(t, e, s.env, found);
      PerformedIsDelivered(t, e, s.env, found);
    }
  }

  lemma PerformedIsDelivered(t: Tables, e: DodoEvent, env: Env, found: Option<WorkspaceId>)
    requires found.Some? ==> found.value in t.subscriptions
    requires Key(e) !in t.log && Intended(t, e, env, found).category.None?
    ensures Performed(t, Intended(t, e, env, found)) == After(t, e, env, found, false).(log := t.log)
    ensures Key(e) in After(t, e, env, found, false).log
    ensures After(t, e, env, found, false).log[Key(e)].processingStatus == Processed
  {
    Delivery.BaselineIgnoresOwnRow(t.log, Begin(t, e).log, e);
    DeliveryShape.DeliverySubscriptions(t, e, env, found, false);
    DeliveryShape.DeliveryLogRow(t, e, env, found, false);
    DeliveryShape.DeliveryAudit(t, e, env, found, false);
  }

  // ----- When attempts may fail -----

  lemma Follow(s: State, first: (nat, Action), rest: Schedule)
    requires Enabled(s, first.0, first.1) && Possible(Act(s, first.0, first.1), rest)
    ensures Possible(s, [first] + rest)
    ensures Execute(s, [first] + rest) == Execute(Act(s, first.0, first.1), rest)
  {
    assert ([first] + rest)[1..] == rest;
  }

  lemma {:induction false} ExecuteConcat(s: State, a: Schedule, b: Schedule)
    requires Possible(s, a) && Possible(Execute(s, a), b)
    ensures Possible(s, a + b) && Execute(s, a + b) == Execute(Execute(s, a), b)
    decreases |a|
  {
    if a == [] {
      assert a + b == b;
    } else {
      assert (a + b)[1..] == a[1..] + b;
      ExecuteConcat(Act(s, a[0].0, a[0].1), a[1..], b);
    }
  }

  predicate WroteRow(s: State, i: nat) {
    i < |s.workers| && s.workers[i] == Ended(Ending.Delivered(true))
  }

  /** Both workers delivered the event and wrote the subscription row. */
  predicate BothWrote(s: State, i: nat, j: nat) {
    i != j && WroteRow(s, i) && WroteRow(s, j)
  }

  predicate BothDelivered(s: State, i: nat, j: nat) {
    i != j && HasDelivered(s, i) && HasDelivered(s, j)
  }

  /** Nobody else has written a subscription row. */
  predicate RowsAreFree(s: State, i: nat) {
    forall j :: 0 <= j < |s.workers| && j != i ==> !HoldsRow(s.workers[j])
  }

  /** A worker that has read, and whose write nothing keeps back, delivers it. */
  lemma WriteAndCommit(s: State, i: nat, w: Write) returns (schedule: Schedule)
    requires i < |s.workers| && s.workers[i] == Computed(false, w) && RowsAreFree(s, i)
    requires w.category.None? && (w.row.Some? && w.inserts ==> w.row.value.0 !in s.tables.subscriptions)
    ensures Possible(s, schedule)
    ensures Execute(s, schedule)
         == s.(row := Some(Processed), tables := Performed(s.tables, w),
               workers := s.workers[i := Ended(Ending.Delivered(w.row.Some?))])
  {
    var s1 := Act(s, i, Flush);
    var r1: Schedule := [(i, CommitProcessed)] + [];
    Follow(s1, (i, CommitProcessed), []);
    Follow(s, (i, Flush), r1);
    schedule := [(i, Flush)] + r1;
  }

  lemma ReadRow(s: State, i: nat, found: Option<WorkspaceId>) returns (schedule: Schedule)
    requires s.row.Some? && !IsSettled(s.row.value) && i < |s.workers| && s.workers[i] == Start
    requires IsFirstMatch(s.tables.subscriptions, Dodo, s.event.subscriptionReference, s.event.customerReference, found)
    ensures Possible(s, schedule)
    ensures Execute(s, schedule)
            == s.(workers := s.workers[i := Computed(false, Intended(s.tables, s.event, s.env, found))])
  {
    var s1 := Act(s, i, Select);
    var r1: Schedule := [(i, Read(found))] + [];
    Follow(s1, (i, Read(found)), []);
    Follow(s, (i, Select), r1);
    schedule := [(i, Select)] + r1;
  }

  /** The event finds a row, is not out of date, and writes it. */
  predicate Updates(t: Tables, e: DodoEvent, found: Option<WorkspaceId>)
    requires found.Some? ==> found.value in t.subscriptions
  {
    e.eventType != Unknown && found.Some? && Mutates(e) && !Outdated(t, e, t.subscriptions[found.value])
  }

  /** Two workers on an unsettled row of the log, of which both read before either writes:
      both deliver, and what a delivery writes is written twice. */
  lemma BothReadBothDeliver(s: State, i: nat, j: nat, found: Option<WorkspaceId>) returns (schedule: Schedule)
    requires s.row.Some? && !IsSettled(s.row.value) && (forall k :: 0 <= k < |s.workers| ==> !HoldsRow(s.workers[k]))
    requires i < |s.workers| && j < |s.workers| && i != j && s.workers[i] == Start == s.workers[j]
    requires IsFirstMatch(s.tables.subscriptions, Dodo, s.event.subscriptionReference, s.event.customerReference, found)
    requires var w := Intended(s.tables, s.event, s.env, found); w.category.None? && !w.inserts
    ensures Possible(s, schedule)
    ensures var n, w := Execute(s, schedule), Intended(s.tables, s.event, s.env, found);
            && n.tables == Performed(Performed(s.tables, w), w)
            && |n.workers| == |s.workers|
            && n.workers[i] == n.workers[j] == Ended(Ending.Delivered(w.row.Some?))
  {
    var w := Intended(s.tables, s.event, s.env, found);
    var a := ReadRow(s, i, found);
    var s1 := Execute(s, a);
    var b := ReadRow(s1, j, found);
    var s2 := Execute(s1, b);
    var c := WriteAndCommit(s2, i, w);
    var s3 := Execute(s2, c);
    var d := WriteAndCommit(s3, j, w);
    ExecuteConcat(s2, c, d);
    ExecuteConcat(s1, b, c + d);
    ExecuteConcat(s, a, b + (c + d));
    schedule := a + (b + (c + d));
  }

  /** Two concurrent redeliveries of an event whose row of the log is failed, or left pending,
      and which updates a row: both read the row before either writes it, both deliver the
      event. The row is written twice with the same content, so its version rises by one
      only, and every audit entry of the update is there twice. */
  lemma UnsettledUpdateIsNotSerialized(s: State, i: nat, j: nat, found: Option<WorkspaceId>)
    returns (schedule: Schedule)
    requires s.row.Some? && !IsSettled(s.row.value) && (forall k :: 0 <= k < |s.workers| ==> !HoldsRow(s.workers[k]))
    requires i < |s.workers| && j < |s.workers| && i != j && s.workers[i] == Start == s.workers[j]
    requires IsFirstMatch(s.tables.subscriptions, Dodo, s.event.subscriptionReference, s.event.customerReference, found)
    requires Updates(s.tables, s.event, found)
    ensures Possible(s, schedule) && BothWrote(Execute(s, schedule), i, j)
    ensures var n, w := Execute(s, schedule).tables, Intended(s.tables, s.event, s.env, found);
            && w.row == Some((found.value, UpdatedRow(s.tables.subscriptions[found.value], s.event, s.env)))
            && n.subscriptions == s.tables.subscriptions[found.value := w.row.value.1]
            && n.audit == s.tables.audit + w.entries + w.entries
            && w.row.value.1.version == s.tables.subscriptions[found.value].version + 1
  {
    schedule := BothReadBothDeliver(s, i, j, found);
  }

  predicate HasReference(e: DodoEvent) {
    Truthy(e.subscriptionReference) || Truthy(e.customerReference)
  }

  /** The event creates a row that it would find again and write again, the row's own write
      time not making it out of date. */
  predicate RepeatsCreation(t: Tables, e: DodoEvent, env: Env) {
    && e.eventType != Unknown && CanCreate(t, e)
    && HasReference(e)
    && !Outdated(t, e, CreatedRow(e, env))
  }

  /** What a delivery reads after another one created the row. */
  lemma CreatedRowIsFound(t: Tables, e: DodoEvent, env: Env, found: Option<WorkspaceId>)
    requires IsFirstMatch(t.subscriptions, Dodo, e.subscriptionReference, e.customerReference, None) && CanCreate(t, e)
    requires var n := t.subscriptions[e.workspaceHint.value := CreatedRow(e, env)];
             IsFirstMatch(n, Dodo, e.subscriptionReference, e.customerReference, found)
    ensures found == if HasReference(e) then e.workspaceHint else None
  {
    var n, w := t.subscriptions[e.workspaceHint.value := CreatedRow(e, env)], e.workspaceHint.value;
    assert HasSubscriptionReference(n[w], Dodo, e.subscriptionReference) <==> Truthy(e.subscriptionReference);
    assert HasCustomerReference(n[w], Dodo, e.customerReference) <==> Truthy(e.customerReference);
  }

  /** A creation is serialized by the workspace's unique key, but a worker that reads after
      the first one committed finds the new row. */
  lemma CreationIsFoundAndDelivered(s: State, i: nat, j: nat) returns (schedule: Schedule)
    requires s.row.Some? && !IsSettled(s.row.value) && (forall k :: 0 <= k < |s.workers| ==> !HoldsRow(s.workers[k]))
    requires i < |s.workers| && j < |s.workers| && i != j && s.workers[i] == Start == s.workers[j]
    requires IsFirstMatch(s.tables.subscriptions, Dodo, s.event.subscriptionReference, s.event.customerReference, None)
    requires s.event.eventType != Unknown && CanCreate(s.tables, s.event) && HasReference(s.event)
    ensures Possible(s, schedule)
    ensures var n, created := Execute(s, schedule), Performed(s.tables, Intended(s.tables, s.event, s.env, None));
            && s.event.workspaceHint.value in created.subscriptions
            && var again := Intended(created, s.event, s.env, s.event.workspaceHint);
               && n.tables == Performed(created, again)
               && |n.workers| == |s.workers|
               && n.workers[i] == Ended(Ending.Delivered(true))
               && n.workers[j] == Ended(Ending.Delivered(again.row.Some?))
  {
    var e, w := s.event, s.event.workspaceHint;
    // both workers read the unsettled row of the log before the first one creates
    var s0 := Act(s, j, Select);
    var a := ReadRow(s0, i, None);
    var s1 := Execute(s0, a);
    var b := WriteAndCommit(s1, i, Intended(s.tables, e, s.env, None));
    var s2 := Execute(s1, b);
    LookupAfterCreation(s.tables, e, s.env);
    var s3 := Act(s2, j, Read(w));
    var c := WriteAndCommit(s3, j, Intended(s2.tables, e, s.env, w));
    Follow(s2, (j, Read(w)), c);
    var d := [(j, Read(w))] + c;
    ExecuteConcat(s1, b, d);
    ExecuteConcat(s0, a, b + d);
    Follow(s, (j, Select), a + (b + d));
    schedule := [(j, Select)] + (a + (b + d));
  }

  /** So two workers can both write: one creates the row, the other updates it. */
  lemma UnsettledCreationIsNotSerialized(s: State, i: nat, j: nat) returns (schedule: Schedule)
    requires s.row.Some? && !IsSettled(s.row.value) && (forall k :: 0 <= k < |s.workers| ==> !HoldsRow(s.workers[k]))
    requires i < |s.workers| && j < |s.workers| && i != j && s.workers[i] == Start == s.workers[j]
    requires IsFirstMatch(s.tables.subscriptions, Dodo, s.event.subscriptionReference, s.event.customerReference, None)
    requires RepeatsCreation(s.tables, s.event, s.env)
    ensures Possible(s, schedule) && BothWrote(Execute(s, schedule), i, j)
    ensures var n, w := Execute(s, schedule).tables, s.event.workspaceHint.value;
            w in n.subscriptions && n.subscriptions[w] == UpdatedRow(CreatedRow(s.event, s.env), s.event, s.env)
  {
    schedule := CreationIsFoundAndDelivered(s, i, j);
  }

  lemma LookupAfterCreation(t: Tables, e: DodoEvent, env: Env)
    requires IsFirstMatch(t.subscriptions, Dodo, e.subscriptionReference, e.customerReference, None) && CanCreate(t, e)
    requires HasReference(e)
    ensures IsFirstMatch(t.subscriptions[e.workspaceHint.value := CreatedRow(e, env)], Dodo,
                         e.subscriptionReference, e.customerReference, e.workspaceHint)
  {
    var n, w := t.subscriptions[e.workspaceHint.value := CreatedRow(e, env)], e.workspaceHint.value;
    assert Truthy(e.subscriptionReference) ==> HasSubscriptionReference(n[w], Dodo, e.subscriptionReference);
    assert Truthy(e.customerReference) ==> HasCustomerReference(n[w], Dodo, e.customerReference);
  }

  /** One worker inserts the row of a new event, raises, and records its failure. */
  lemma FailFirst(s: State, a: nat) returns (schedule: Schedule)
    requires Fresh(s) && a < |s.workers|
    ensures Possible(s, schedule)
    ensures Execute(s, schedule) == s.(row := Some(Failed), workers := s.workers[a := Ended(FailedAttempt)])
  {
    var s1 := Act(s, a, Select);
    var s2 := Act(s1, a, Insert);
    var s3 := Act(s2, a, Raise);
    assert s3 == s.(workers := s.workers[a := RolledBack]);
    var r3 := RecordFailure(s3, a);
    Follow(s2, (a, Raise), r3);
    var r2 := [(a, Raise)] + r3;
    Follow(s1, (a, Insert), r2);
    var r1 := [(a, Insert)] + r2;
    Follow(s, (a, Select), r1);
    schedule := [(a, Select)] + r1;
  }

  lemma RecordFailure(s: State, a: nat) returns (schedule: Schedule)
    requires s.row.None? && a < |s.workers| && s.workers[a] == RolledBack && !Blocked(s, a)
    ensures Possible(s, schedule)
    ensures Execute(s, schedule) == s.(row := Some(Failed), workers := s.workers[a := Ended(FailedAttempt)])
  {
    var s1 := Act(s, a, Select);
    var s2 := Act(s1, a, Insert);
    var r2: Schedule := [(a, CommitFailed)] + [];
    Follow(s2, (a, CommitFailed), []);
    Follow(s1, (a, Insert), r2);
    var r1 := [(a, Insert)] + r2;
    Follow(s, (a, Select), r1);
    schedule := [(a, Select)] + r1;
  }

  /** The record of a failed attempt may land on a row another worker has just processed: it
      then counts as failed, and the next delivery makes its write to the tables again. */
  lemma LateFailureReopensProcessedRow(s: State, a: nat, c: nat, found: Option<WorkspaceId>)
    returns (schedule: Schedule)
    requires s.row == Some(Processed)
    requires a < |s.workers| && c < |s.workers| && a != c && s.workers[a] == RolledBack && s.workers[c] == Start
    requires forall k :: 0 <= k < |s.workers| ==> !HoldsRow(s.workers[k])
    requires IsFirstMatch(s.tables.subscriptions, Dodo, s.event.subscriptionReference, s.event.customerReference, found)
    requires Updates(s.tables, s.event, found)
    ensures Possible(s, schedule) && WroteRow(Execute(s, schedule), c)
    ensures Execute(s, schedule).tables == Performed(s.tables, Intended(s.tables, s.event, s.env, found))
    ensures Execute(s, schedule).tables.subscriptions
            == s.tables.subscriptions[found.value := UpdatedRow(s.tables.subscriptions[found.value], s.event, s.env)]
  {
    var s1 := Act(s, a, Select);
    var s2 := Act(s1, a, CommitFailed);
    var b := ReadRow(s2, c, found);
    var s3 := Execute(s2, b);
    var d := WriteAndCommit(s3, c, Intended(s.tables, s.event, s.env, found));
    ExecuteConcat(s2, b, d);
    Follow(s1, (a, CommitFailed), b + d);
    var r1 := [(a, CommitFailed)] + (b + d);
    Follow(s, (a, Select), r1);
    schedule := [(a, Select)] + r1;
  }

  /** Such a moment is reached by two deliveries of a new event: one inserts and raises, and
      the other delivers the event before the first records its failure. */
  lemma ReopeningIsReachable(s: State, a: nat, b: nat, found: Option<WorkspaceId>) returns (schedule: Schedule)
    requires Fresh(s) && a < |s.workers| && b < |s.workers| && a != b
    requires IsFirstMatch(s.tables.subscriptions, Dodo, s.event.subscriptionReference, s.event.customerReference, found)
    requires Intended(s.tables, s.event, s.env, found).category.None?
    ensures Possible(s, schedule)
    ensures var w := Intended(s.tables, s.event, s.env, found);
            Execute(s, schedule) == s.(row := Some(Processed), tables := Performed(s.tables, w),
                                       workers := s.workers[a := RolledBack][b := Ended(Ending.Delivered(w.row.Some?))])
  {
    var s1 := Act(s, a, Select);
    var s2 := Act(s1, a, Insert);
    var s3 := Act(s2, a, Raise);
    assert s3 == s.(workers := s.workers[a := RolledBack]);
    var r3 := DeliverFresh(s3, b, found);
    Follow(s2, (a, Raise), r3);
    var r2 := [(a, Raise)] + r3;
    Follow(s1, (a, Insert), r2);
    var r1 := [(a, Insert)] + r2;
    Follow(s, (a, Select), r1);
    schedule := [(a, Select)] + r1;
  }

  lemma DeliverFresh(s: State, b: nat, found: Option<WorkspaceId>) returns (schedule: Schedule)
    requires s.row.None? && b < |s.workers| && s.workers[b] == Start
    requires forall k :: 0 <= k < |s.workers| ==> !HoldsInsert(s.workers[k]) && !HoldsRow(s.workers[k])
    requires IsFirstMatch(s.tables.subscriptions, Dodo, s.event.subscriptionReference, s.event.customerReference, found)
    requires Intended(s.tables, s.event, s.env, found).category.None?
    ensures Possible(s, schedule)
    ensures var w := Intended(s.tables, s.event, s.env, found);
            Execute(s, schedule) == s.(row := Some(Processed), tables := Performed(s.tables, w),
                                       workers := s.workers[b := Ended(Ending.Delivered(w.row.Some?))])
  {
    var s1 := Act(s, b, Select);
    var s2 := Act(s1, b, Insert);
    var s3 := Act(s2, b, Read(found));
    var s4 := Act(s3, b, Flush);
    var r4: Schedule := [(b, CommitProcessed)] + [];
    Follow(s4, (b, CommitProcessed), []);
    Follow(s3, (b, Flush), r4);
    var r3 := [(b, Flush)] + r4;
    Follow(s2, (b, Read(found)), r3);
    var r2 := [(b, Read(found))] + r3;
    Follow(s1, (b, Insert), r2);
    var r1 := [(b, Insert)] + r2;
    Follow(s, (b, Select), r1);
    schedule := [(b, Select)] + r1;
  }

  // ----- Exactly when two workers can write -----

  /** Before any worker starts: the event updates a row it finds, or creates one it would
      then update. */
  predicate WritesAgain(t: Tables, e: DodoEvent, env: Env) {
    || (exists w :: w in t.subscriptions && Updates(t, e, Some(w))
                    && IsFirstMatch(t.subscriptions, Dodo, e.subscriptionReference, e.customerReference, Some(w)))
    || (IsFirstMatch(t.subscriptions, Dodo, e.subscriptionReference, e.customerReference, None)
        && RepeatsCreation(t, e, env))
  }

  ghost predicate CanWriteTwice(s: State) {
    exists schedule, i, j :: Possible(s, schedule) && BothWrote(Execute(s, schedule), i, j)
  }

  lemma UnsettledCanWriteTwice(s: State, i: nat, j: nat) returns (schedule: Schedule)
    requires s.row.Some? && !IsSettled(s.row.value) && (forall k :: 0 <= k < |s.workers| ==> !HoldsRow(s.workers[k]))
    requires i < |s.workers| && j < |s.workers| && i != j && s.workers[i] == Start == s.workers[j]
    requires WritesAgain(s.tables, s.event, s.env)
    ensures Possible(s, schedule) && BothWrote(Execute(s, schedule), i, j)
  {
    var t, e := s.tables, s.event;
    if w :| w in t.subscriptions && Updates(t, e, Some(w))
            && IsFirstMatch(t.subscriptions, Dodo, e.subscriptionReference, e.customerReference, Some(w)) {
      schedule := UnsettledUpdateIsNotSerialized(s, i, j, Some(w));
    } else {
      schedule := UnsettledCreationIsNotSerialized(s, i, j);
    }
  }

  /** A row of the log that is settled before any worker starts. */
  ghost predicate IsClosed(s: State) {
    && s.row.Some? && IsSettled(s.row.value)
    && forall i :: 0 <= i < |s.workers| ==>
                     || s.workers[i] == Start || s.workers[i] == SawSettled
                     || s.workers[i] == Ended(Ending.Duplicate) || s.workers[i] == Ended(Crashed)
  }

  lemma {:induction false} SettledRowAdmitsNobody(s: State, schedule: Schedule)
    requires IsClosed(s) && Possible(s, schedule)
    ensures IsClosed(Execute(s, schedule)) && Execute(s, schedule).tables == s.tables
    decreases |schedule|
  {
    if schedule != [] {
      SettledRowAdmitsNobody(Act(s, schedule[0].0, schedule[0].1), schedule[1..]);
    }
  }

  lemma {:induction false} WorkersStay(s: State, schedule: Schedule)
    requires Possible(s, schedule)
    ensures |Execute(s, schedule).workers| == |s.workers|
    decreases |schedule|
  {
    if schedule != [] {
      WorkersStay(Act(s, schedule[0].0, schedule[0].1), schedule[1..]);
    }
  }

  ghost predicate AllAtStart(s: State) {
    forall i :: 0 <= i < |s.workers| ==> s.workers[i] == Start
  }

  predicate EnoughWorkers(s: State) {
    if s.row.None? then |s.workers| >= 3 else !IsSettled(s.row.value) && |s.workers| >= 2
  }

  lemma TooFewToDeliverTwice(s: State, schedule: Schedule, i: nat, j: nat)
    requires AllAtStart(s) && !EnoughWorkers(s) && Possible(s, schedule)
    ensures !BothDelivered(Execute(s, schedule), i, j)
  {
    var n := Execute(s, schedule);
    WorkersStay(s, schedule);
    if s.row.Some? && IsSettled(s.row.value) {
      SettledRowAdmitsNobody(s, schedule);
    } else if s.row.None? && BothDelivered(n, i, j) {
      assert forall k: nat :: HasFailed(n, k) ==> k == i || k == j;
      assert NoneFailed(n);
      AppliedAtMostOnce(s, schedule);
    }
  }

  /** The write that creates the row, for an event that finds none. */
  predicate Creates(t: Tables, e: DodoEvent, env: Env, w: Write) {
    && IsFirstMatch(t.subscriptions, Dodo, e.subscriptionReference, e.customerReference, None) && CanCreate(t, e)
    && w.inserts && w.row == Some((e.workspaceHint.value, CreatedRow(e, env)))
  }

  predicate IsUntouched(s: State, t: Tables) {
    s.tables.subscriptions == t.subscriptions
  }

  predicate IsCreated(s: State, t: Tables) {
    && IsFirstMatch(t.subscriptions, Dodo, s.event.subscriptionReference, s.event.customerReference, None)
    && CanCreate(t, s.event)
    && s.tables.subscriptions == t.subscriptions[s.event.workspaceHint.value := CreatedRow(s.event, s.env)]
  }

  /** Of an event that would not write again: all that ever writes a row is its creation, and
      that happens once. */
  ghost predicate OneWrite(s: State, t: Tables) {
    && s.tables.log == t.log && s.tables.workspaces == t.workspaces
    && (forall i :: 0 <= i < |s.workers| && (s.workers[i].Computed? || s.workers[i].Applied?) ==>
                      s.workers[i].write.row.None? || Creates(t, s.event, s.env, s.workers[i].write))
    && (forall i, j :: 0 <= i < j < |s.workers| ==> !(HoldsRow(s.workers[i]) && HoldsRow(s.workers[j])))
    && (forall i: nat, j: nat :: WroteRow(s, i) && WroteRow(s, j) ==> i == j)
    && (if IsUntouched(s, t) then forall i: nat :: !WroteRow(s, i)
        else IsCreated(s, t) && forall i :: 0 <= i < |s.workers| ==> !HoldsRow(s.workers[i]))
  }

  lemma ReadFindsNothingToRepeat(s: State, t: Tables, found: Option<WorkspaceId>)
    requires OneWrite(s, t) && !WritesAgain(t, s.event, s.env)
    requires IsFirstMatch(s.tables.subscriptions, Dodo, s.event.subscriptionReference, s.event.customerReference, found)
    ensures var w := Intended(s.tables, s.event, s.env, found);
            w.row.None? || Creates(t, s.event, s.env, w)
  {
    var e := s.event;
    if IsUntouched(s, t) {
      if found.Some? {
        assert !Updates(t, e, found);
        assert Outdated(s.tables, e, t.subscriptions[found.value]) == Outdated(t, e, t.subscriptions[found.value]);
      }
    } else {
      CreatedRowIsFound(t, e, s.env, found);
      assert Outdated(s.tables, e, CreatedRow(e, s.env)) == Outdated(t, e, CreatedRow(e, s.env));
    }
  }

  lemma CreationIsTheOneWrite(s: State, t: Tables, i: nat)
    requires OneWrite(s, t) && Enabled(s, i, CommitProcessed) && HoldsRow(s.workers[i])
    ensures OneWrite(Act(s, i, CommitProcessed), t)
  {
    var n := Act(s, i, CommitProcessed);
    assert forall j :: 0 <= j < |s.workers| && j != i ==> n.workers[j] == s.workers[j];
    assert forall j: nat :: j != i ==> (WroteRow(n, j) <==> WroteRow(s, j));
    assert Creates(t, s.event, s.env, s.workers[i].write);
    assert IsCreated(n, t);
  }

  lemma MoveKeepsOneWrite(s: State, t: Tables, n: State, i: nat, p: Phase)
    requires OneWrite(s, t) && i < |s.workers| && n.workers == s.workers[i := p] && !s.workers[i].Ended?
    requires n.event == s.event && n.env == s.env && n.tables.subscriptions == s.tables.subscriptions
    requires n.tables.log == t.log && n.tables.workspaces == t.workspaces && p != Ended(Ending.Delivered(true))
    requires p.Computed? || p.Applied? ==> p.write.row.None? || Creates(t, s.event, s.env, p.write)
    requires HoldsRow(p) ==> IsUntouched(s, t) && forall j :: 0 <= j < |s.workers| && j != i ==> !HoldsRow(s.workers[j])
    ensures OneWrite(n, t)
  {
    assert forall j :: 0 <= j < |s.workers| && j != i ==> n.workers[j] == s.workers[j];
    assert forall j: nat :: WroteRow(n, j) <==> WroteRow(s, j);
  }

  lemma ActKeepsOneWrite(s: State, t: Tables, i: nat, a: Action)
    requires OneWrite(s, t) && !WritesAgain(t, s.event, s.env) && Enabled(s, i, a)
    ensures OneWrite(Act(s, i, a), t)
  {
    if a == CommitProcessed && HoldsRow(s.workers[i]) {
      CreationIsTheOneWrite(s, t, i);
    } else {
      var n := Act(s, i, a);
      OthersAsBefore(s, t, i, a, n.workers[i]);
      MoveKeepsOneWrite(s, t, n, i, n.workers[i]);
    }
  }

  /** A step that writes no subscription row. */
  lemma OthersAsBefore(s: State, t: Tables, i: nat, a: Action, p: Phase)
    requires OneWrite(s, t) && !WritesAgain(t, s.event, s.env) && Enabled(s, i, a) && p == Act(s, i, a).workers[i]
    requires !(a == CommitProcessed && HoldsRow(s.workers[i]))
    ensures p.Computed? || p.Applied? ==> p.write.row.None? || Creates(t, s.event, s.env, p.write)
    ensures HoldsRow(p) ==>
              IsUntouched(s, t) && forall j :: 0 <= j < |s.workers| && j != i ==> !HoldsRow(s.workers[j])
  {
    if a.Read? {
      ReadFindsNothingToRepeat(s, t, a.found);
    } else if a == Flush && HoldsRow(p) {
      assert Creates(t, s.event, s.env, p.write);
      assert forall j :: 0 <= j < |s.workers| && HoldsRow(s.workers[j]) ==>
                           Creates(t, s.event, s.env, s.workers[j].write);
    }
  }

  lemma {:induction false} NothingToRepeat(s: State, t: Tables, schedule: Schedule)
    requires OneWrite(s, t) && !WritesAgain(t, s.event, s.env) && Possible(s, schedule)
    ensures OneWrite(Execute(s, schedule), t)
    decreases |schedule|
  {
    if schedule != [] {
      ActKeepsOneWrite(s, t, schedule[0].0, schedule[0].1);
      NothingToRepeat(Act(s, schedule[0].0, schedule[0].1), t, schedule[1..]);
    }
  }

  /** When workers start together on one event, two of them can deliver it and write the
      subscription row exactly when there are enough of them, three while the event has no
      row of the log and two while its row is unsettled, and the event writes again what it
      has written: it updates a row it finds, or creates one it would find and update. */
  lemma WrittenTwiceExactly(s: State)
    requires AllAtStart(s)
    ensures CanWriteTwice(s) <==> EnoughWorkers(s) && WritesAgain(s.tables, s.event, s.env)
  {
    if !EnoughWorkers(s) {
      forall schedule, i: nat, j: nat | Possible(s, schedule) ensures !BothWrote(Execute(s, schedule), i, j) {
        TooFewToDeliverTwice(s, schedule, i, j);
      }
    } else if !WritesAgain(s.tables, s.event, s.env) {
      forall schedule, i: nat, j: nat | Possible(s, schedule) ensures !BothWrote(Execute(s, schedule), i, j) {
        NothingToRepeat(s, s.tables, schedule);
      }
    } else if s.row.Some? {
      var schedule := UnsettledCanWriteTwice(s, 0, 1);
      assert BothWrote(Execute(s, schedule), 0, 1);
    } else {
      var first := FailFirst(s, 0);
      var second := UnsettledCanWriteTwice(Execute(s, first), 1, 2);
      ExecuteConcat(s, first, second);
      assert BothWrote(Execute(s, first + second), 1, 2);
    }
  }
}
