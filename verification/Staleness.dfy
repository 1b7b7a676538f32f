/** The staleness baseline read off the webhook log: when it is there, and what it orders. */
module Staleness {
  import opened BillingTypes
  import opened Lookup
  import opened Idempotency
  import opened DodoEvents
  import opened DodoProcessor
  import opened DeliveryShape
  import opened Runs
  import opened Delivery
  import RowHistory

  /** The provider identifies events: two with the same id are the same event. */
  ghost predicate IdsIdentify(events: set<DodoEvent>) {
    forall d, e :: d in events && e in events && d.externalEventId == e.externalEventId ==> d == e
  }

  /** The log records the events of `events`, as they were delivered. */
  ghost predicate LogRecords(t: Tables, events: set<DodoEvent>) {
    forall k :: k in t.log && k.provider == Dodo ==>
                  exists e :: e in events && k == Key(e) && Recorded(t.log[k]) == FreshRow(e)
  }

  /** A processed, timestamped row of the log with this subscription reference. */
  predicate SubscriptionWitness(t: Tables, reference: Option<string>, k: EventKey) {
    k in t.log && k.provider == Dodo && t.log[k].processingStatus == Processed && t.log[k].occurredAt.Some?
    && t.log[k].subscriptionReference == reference
  }

  predicate CustomerWitness(t: Tables, reference: Option<string>, k: EventKey) {
    k in t.log && k.provider == Dodo && t.log[k].processingStatus == Processed && t.log[k].occurredAt.Some?
    && t.log[k].customerReference == reference
  }

  /** Each non-empty reference of a Dodo row was carried by a processed event. */
  ghost predicate RowsAreWitnessed(t: Tables) {
    forall w :: w in t.subscriptions && t.subscriptions[w].provider == Dodo ==> RowIsWitnessed(t, t.subscriptions[w])
  }

  ghost predicate RowIsWitnessed(t: Tables, row: Subscription) {
    && (Truthy(row.subscriptionReference) ==> exists k :: SubscriptionWitness(t, row.subscriptionReference, k))
    && (Truthy(row.customerReference) ==> exists k :: CustomerWitness(t, row.customerReference, k))
  }

  ghost predicate Invariant(t: Tables, events: set<DodoEvent>) {
    LogRecords(t, events) && RowsAreWitnessed(t)
  }

  /** Webhook traffic as the provider intends it: timestamped events, none delivered again
      once it was processed; failing attempts, Paddle traffic and preparations are allowed. */
  predicate Ordinary(t: Tables, s: Step, events: set<DodoEvent>) {
    match s
    case DodoDelivery(e, _, _, _) => e in events && e.occurredAt.Some? && !IsDuplicate(t, e)
    case DodoReconcile(_, _, _, _, _, _) => false
    case _ => true
  }

  predicate OrdinaryRun(t: Tables, steps: seq<Step>, events: set<DodoEvent>)
    requires ValidRun(t, steps)
    decreases |steps|
  {
    steps == [] || (Ordinary(t, steps[0], events) && OrdinaryRun(Next(t, steps[0]), steps[1..], events))
  }

  lemma WitnessesPersist(t: Tables, n: Tables, row: Subscription)
    requires RowIsWitnessed(t, row)
    requires forall k :: k in t.log && k.provider == Dodo && t.log[k].processingStatus == Processed ==>
                           k in n.log && n.log[k] == t.log[k]
    ensures RowIsWitnessed(n, row)
  {
    if Truthy(row.subscriptionReference) {
      var k :| SubscriptionWitness(t, row.subscriptionReference, k);
      assert SubscriptionWitness(n, row.subscriptionReference, k);
    }
    if Truthy(row.customerReference) {
      var k :| CustomerWitness(t, row.customerReference, k);
      assert CustomerWitness(n, row.customerReference, k);
    }
  }

  /** A delivery writes its own row of the log and no other. */
  lemma DeliveryLog(t: Tables, e: DodoEvent, env: Env, found: Option<WorkspaceId>, raised: bool, events: set<DodoEvent>)
    requires found.Some? ==> found.value in t.subscriptions
    requires IdsIdentify(events) && LogRecords(t, events) && e in events
    ensures var n := After(t, e, env, found, raised);
            && n.log == t.log[Key(e) := n.log[Key(e)]]
            && Recorded(n.log[Key(e)]) == FreshRow(e)
            && LogRecords(n, events)
  {
    var n := After(t, e, env, found, raised);
    DeliveryLogRow(t, e, env, found, raised);
    if Key(e) in t.log {
      var d :| d in events && Key(e) == Key(d) && Recorded(t.log[Key(e)]) == FreshRow(d);
    }
    forall k | k in n.log && k.provider == Dodo
      ensures exists d :: d in events && k == Key(d) && Recorded(n.log[k]) == FreshRow(d)
    {
      if k != Key(e) {
        assert k in t.log;
      }
    }
  }

  /** What the delivered event itself witnesses: the references it left on its row. */
  lemma EventWitnessesItsRow(t: Tables, n: Tables, e: DodoEvent, row: Subscription, next: Subscription)
    requires Key(e) in n.log && n.log[Key(e)].processingStatus == Processed
    requires Recorded(n.log[Key(e)]) == FreshRow(e) && e.occurredAt.Some?
    requires RowIsWitnessed(n, row)
    requires next.subscriptionReference == row.subscriptionReference
             || next.subscriptionReference == e.subscriptionReference
    requires next.customerReference == row.customerReference || next.customerReference == e.customerReference
    ensures RowIsWitnessed(n, next)
  {
    var r := n.log[Key(e)];
    assert r.occurredAt == Recorded(r).occurredAt && r.subscriptionReference == Recorded(r).subscriptionReference
           && r.customerReference == Recorded(r).customerReference;
    assert SubscriptionWitness(n, e.subscriptionReference, Key(e));
    assert CustomerWitness(n, e.customerReference, Key(e));
  }

  /** The rows after a delivery are witnessed by the log after it. */
  lemma DeliveredRowsAreWitnessed(t: Tables, n: Tables, e: DodoEvent, env: Env, found: Option<WorkspaceId>,
                                  raised: bool)
    requires found.Some? ==> found.value in t.subscriptions && t.subscriptions[found.value].provider == Dodo
    requires RowsAreWitnessed(t) && !IsDuplicate(t, e) && e.occurredAt.Some?
    requires n.log == t.log[Key(e) := LogRowAfter(t, e, found, raised)]
    requires Recorded(n.log[Key(e)]) == FreshRow(e)
    requires n.subscriptions == SubscriptionsAfter(t, e, env, found, raised)
    ensures RowsAreWitnessed(n)
  {
    forall w | w in n.subscriptions && n.subscriptions[w].provider == Dodo
      ensures RowIsWitnessed(n, n.subscriptions[w])
    {
      var next := n.subscriptions[w];
      if w in t.subscriptions {
        var row := t.subscriptions[w];
        assert RowIsWitnessed(t, row);
        WitnessesPersist(t, n, row);
        if next != row {
          EventWitnessesItsRow(t, n, e, row, next);
        }
      } else {
        EventWitnessesItsRow(t, n, e, next.(subscriptionReference := None, customerReference := None), next);
      }
    }
  }

  lemma DeliveryKeepsInvariant(t: Tables, e: DodoEvent, env: Env, found: Option<WorkspaceId>, raised: bool,
                               events: set<DodoEvent>)
    requires IsFirstMatch(t.subscriptions, Dodo, e.subscriptionReference, e.customerReference, found)
    requires IdsIdentify(events) && Invariant(t, events)
    requires e in events && e.occurredAt.Some? && !IsDuplicate(t, e)
    ensures Invariant(After(t, e, env, found, raised), events)
  {
    DeliveryLog(t, e, env, found, raised, events);
    DeliveryLogRow(t, e, env, found, raised);
    DeliverySubscriptions(t, e, env, found, raised);
    DeliveredRowsAreWitnessed(t, After(t, e, env, found, raised), e, env, found, raised);
  }

  lemma StepKeepsInvariant(t: Tables, s: Step, events: set<DodoEvent>)
    requires IdsIdentify(events) && Invariant(t, events)
    requires Possible(t, s) && Ordinary(t, s, events)
    ensures Invariant(Next(t, s), events)
  {
    if s.DodoDelivery? {
      DeliveryKeepsInvariant(t, s.event, s.env, s.found, s.raised, events);
    } else {
      var n := Next(t, s);
      StepFrame(t, s);
      forall k: EventKey | k.provider == Dodo
        ensures k in n.log <==> k in t.log
        ensures k in t.log ==> n.log[k] == t.log[k]
      {
        StepLogFrame(t, s, k);
      }
      forall w | w in n.subscriptions && n.subscriptions[w].provider == Dodo
        ensures RowIsWitnessed(n, n.subscriptions[w])
      {
        assert w in t.subscriptions;
        WitnessesPersist(t, n, t.subscriptions[w]);
        assert Some(w) == Target(s) || RowAt(n, w) == RowAt(t, w);
      }
    }
  }

  lemma {:induction false} RunKeepsInvariant(t: Tables, steps: seq<Step>, events: set<DodoEvent>)
    requires IdsIdentify(events) && Invariant(t, events)
    requires ValidRun(t, steps) && OrdinaryRun(t, steps, events)
    ensures Invariant(Run(t, steps), events)
    decreases |steps|
  {
    if steps != [] {
      StepKeepsInvariant(t, steps[0], events);
      RunKeepsInvariant(Next(t, steps[0]), steps[1..], events);
    }
  }

  /** After any ordinary run, an event that finds a row finds a processed event to compare
      itself with: the row's own write time is never the baseline. */
  lemma FallbackIsNeverConsulted(t: Tables, steps: seq<Step>, events: set<DodoEvent>, e: DodoEvent,
                                 found: Option<WorkspaceId>)
    requires IdsIdentify(events) && Invariant(t, events)
    requires ValidRun(t, steps) && OrdinaryRun(t, steps, events)
    requires !IsDuplicate(Run(t, steps), e)
    requires IsFirstMatch(Run(t, steps).subscriptions, Dodo, e.subscriptionReference, e.customerReference, found)
             && found.Some?
    ensures LatestProcessed(Begin(Run(t, steps), e).log, Dodo,
                            e.subscriptionReference, e.customerReference, e.externalEventId).Some?
  {
    RunKeepsInvariant(t, steps, events);
    var last := Run(t, steps);
    var row := last.subscriptions[found.value];
    assert RowIsWitnessed(last, row);
    var log := Begin(last, e).log;
    if HasSubscriptionReference(row, Dodo, e.subscriptionReference) {
      var k :| SubscriptionWitness(last, row.subscriptionReference, k);
      assert k in log && IsBaselineRow(k, log[k], Dodo, e.subscriptionReference, e.customerReference,
                                       e.externalEventId);
    } else {
      var k :| CustomerWitness(last, row.customerReference, k);
      assert k in log && IsBaselineRow(k, log[k], Dodo, e.subscriptionReference, e.customerReference,
                                       e.externalEventId);
    }
  }

  // ----- The order in which events are applied -----

  /** One redelivery ends the guarantee: after an event `d` that is done was delivered again,
      an event has a baseline exactly when a processed event other than `d` shares one of its
      references; otherwise the row's write time is what it is compared with. */
  lemma RedeliveryKeepsBaselineExactly(t: Tables, d: DodoEvent, env: Env, found: Option<WorkspaceId>, raised: bool,
                                       e: DodoEvent)
    requires found.Some? ==> found.value in t.subscriptions
    requires SettledIn(t, Key(d))
    ensures LatestProcessed(Begin(After(t, d, env, found, raised), e).log, Dodo,
                            e.subscriptionReference, e.customerReference, e.externalEventId).Some?
            <==> exists k :: && k in t.log && k != Key(d)
                             && IsBaselineRow(k, t.log[k], Dodo, e.subscriptionReference, e.customerReference,
                                              e.externalEventId)
  {
    var n := After(t, d, env, found, raised).log;
    var log := Begin(After(t, d, env, found, raised), e).log;
    DeliveryLogRow(t, d, env, found, raised);
    assert n == t.log[Key(d) := MarkedDuplicate(t.log[Key(d)])];
    if k :| k in t.log && k != Key(d)
            && IsBaselineRow(k, t.log[k], Dodo, e.subscriptionReference, e.customerReference, e.externalEventId) {
      assert log[k] == t.log[k];
      assert IsBaselineRow(k, log[k], Dodo, e.subscriptionReference, e.customerReference, e.externalEventId);
    }
    var m := LatestProcessed(log, Dodo, e.subscriptionReference, e.customerReference, e.externalEventId);
    if m.Some? {
      var k :| k in log && IsBaselineRow(k, log[k], Dodo, e.subscriptionReference, e.customerReference,
                                         e.externalEventId)
               && log[k].occurredAt.value == m.value;
      assert k != Key(d) && k != Key(e) && log[k] == t.log[k];
    }
  }

  /** A delivered event whose row of the log stays processed from here on. */
  predicate ProcessedAs(t: Tables, e: DodoEvent) {
    Key(e) in t.log && t.log[Key(e)].processingStatus == Processed && Recorded(t.log[Key(e)]) == FreshRow(e)
  }

  /** Every step of an ordinary run is ordinary where it happens, and what is processed at
      one point of the run is processed at every later one. */
  lemma {:induction false} OrdinaryAt(t: Tables, steps: seq<Step>, events: set<DodoEvent>, j: nat)
    requires ValidRun(t, steps) && OrdinaryRun(t, steps, events) && j < |steps|
    ensures Ordinary(RowHistory.StateAt(t, steps, j), steps[j], events)
    decreases j
  {
    RowHistory.PrefixIsValid(t, steps, j);
    if j == 0 {
      assert steps[..0] == [];
    } else {
      OrdinaryAt(Next(t, steps[0]), steps[1..], events, j - 1);
      assert steps[..j][1..] == steps[1..][..j - 1];
    }
  }

  lemma {:induction false} ProcessedLater(t: Tables, steps: seq<Step>, events: set<DodoEvent>, i: nat, j: nat,
                                          e: DodoEvent)
    requires ValidRun(t, steps) && OrdinaryRun(t, steps, events) && i <= j <= |steps|
    requires ProcessedAs(RowHistory.StateAt(t, steps, i), e)
    ensures ProcessedAs(RowHistory.StateAt(t, steps, j), e)
    decreases j
  {
    if i < j {
      ProcessedLater(t, steps, events, i, j - 1, e);
      OrdinaryAt(t, steps, events, j - 1);
      RowHistory.StateAfterOne(t, steps, j - 1);
      StepLogFrame(RowHistory.StateAt(t, steps, j - 1), steps[j - 1], Key(e));
    }
  }

  /** An event changes an existing row only when no processed event of its customer or its
      subscription is newer. */
  lemma AppliedEventIsNewest(t: Tables, e: DodoEvent, env: Env, w: WorkspaceId, earlier: DodoEvent)
    requires IsFirstMatch(t.subscriptions, Dodo, e.subscriptionReference, e.customerReference, Some(w))
    requires e.occurredAt.Some? && earlier.occurredAt.Some?
    requires ProcessedAs(t, earlier) && earlier.externalEventId != e.externalEventId
    requires (Truthy(e.customerReference) && earlier.customerReference == e.customerReference)
             || (Truthy(e.subscriptionReference) && earlier.subscriptionReference == e.subscriptionReference)
    requires After(t, e, env, Some(w), false).subscriptions != t.subscriptions
    ensures earlier.occurredAt.value <= e.occurredAt.value
  {
    var log := Begin(t, e).log;
    var r := log[Key(earlier)];
    assert r.occurredAt == Recorded(r).occurredAt && r.subscriptionReference == Recorded(r).subscriptionReference
           && r.customerReference == Recorded(r).customerReference;
    assert IsBaselineRow(Key(earlier), r, Dodo, e.subscriptionReference, e.customerReference, e.externalEventId);
  }

  lemma UnprocessedHasNoEffect(t: Tables, s: Step)
    requires s.DodoDelivery? && Possible(t, s) && Next(t, s).subscriptions != t.subscriptions
    ensures !s.raised && !IsDuplicate(t, s.event)
  {
  }

  lemma ChangedByTheNewest(before: Tables, s: Step, earlier: DodoEvent)
    requires s.DodoDelivery? && Possible(before, s) && s.found.Some?
    requires Next(before, s).subscriptions != before.subscriptions
    requires s.event.occurredAt.Some? && earlier.occurredAt.Some? && ProcessedAs(before, earlier)
    requires Truthy(s.event.customerReference) && earlier.customerReference == s.event.customerReference
    ensures earlier.occurredAt.value <= s.event.occurredAt.value
  {
    UnprocessedHasNoEffect(before, s);
    AppliedEventIsNewest(before, s.event, s.env, s.found.value, earlier);
  }

  /** In an ordinary run, whenever an event changes an existing row, every event of the same
      customer that was processed earlier in the run is at most as new: the timestamps
      applied to a customer's row never decrease. */
  lemma AppliedTimesNeverDecrease(t: Tables, steps: seq<Step>, events: set<DodoEvent>, i: nat, j: nat)
    requires IdsIdentify(events) && Invariant(t, events)
    requires ValidRun(t, steps) && OrdinaryRun(t, steps, events)
    requires i < j < |steps| && steps[i].DodoDelivery? && steps[j].DodoDelivery?
    requires Truthy(steps[j].event.customerReference)
             && steps[i].event.customerReference == steps[j].event.customerReference
    requires ProcessedAs(RowHistory.StateAt(t, steps, i + 1), steps[i].event)
    requires steps[j].found.Some?
             && RowHistory.StateAt(t, steps, j + 1).subscriptions != RowHistory.StateAt(t, steps, j).subscriptions
    ensures steps[i].event.occurredAt.Some? && steps[j].event.occurredAt.Some?
    ensures steps[i].event.occurredAt.value <= steps[j].event.occurredAt.value
  {
    OrdinaryAt(t, steps, events, i);
    OrdinaryAt(t, steps, events, j);
    ProcessedLater(t, steps, events, i + 1, j, steps[i].event);
    RowHistory.StateAfterOne(t, steps, j);
    ChangedByTheNewest(RowHistory.StateAt(t, steps, j), steps[j], steps[i].event);
  }
}
