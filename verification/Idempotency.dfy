/** The webhook log: one row per (provider, event id), and the staleness baseline read off it. */
module Idempotency {
  import opened BillingTypes
  import opened Sets

  /** The row the first delivery of an event inserts. */
  function PendingRow(t: EventType, at: Option<Timestamp>, customer: Option<string>,
                      subscription: Option<string>, transaction: Option<string>): WebhookRow {
    WebhookRow(t, at, customer, subscription, transaction, Pending, 0, NoError)
  }

  /** Record a pending row unless the event was recorded before: that row is kept as it is. */
  function RecordPending(log: map<EventKey, WebhookRow>, key: EventKey, row: WebhookRow): map<EventKey, WebhookRow> {
    if key in log then log else log[key := row]
  }

  function MarkedProcessed(r: WebhookRow): WebhookRow {
    r.(processingStatus := Processed, attemptCount := r.attemptCount + 1, errorCategory := NoError)
  }

  function MarkedFailed(r: WebhookRow, category: ErrorCategory): WebhookRow {
    r.(processingStatus := Failed, attemptCount := r.attemptCount + 1, errorCategory := category)
  }

  function MarkedDuplicate(r: WebhookRow): WebhookRow {
    r.(processingStatus := DuplicateIgnored)
  }

  /** A delivery whose row has this status is a duplicate of a completed one. */
  predicate IsSettled(s: ProcessingStatus) {
    s == Processed || s == DuplicateIgnored
  }

  /** A row of the log that counts towards the baseline of an event with these references. */
  predicate IsBaselineRow(k: EventKey, r: WebhookRow, p: Provider, subscription: Option<string>,
                          customer: Option<string>, exclude: string) {
    && k.provider == p
    && r.processingStatus == Processed
    && k.externalEventId != exclude
    && r.occurredAt.Some?
    && ((Truthy(subscription) && r.subscriptionReference == subscription)
        || (Truthy(customer) && r.customerReference == customer))
  }

  /** `m` is the latest time of the baseline rows, or absent when there are none. */
  ghost predicate IsLatest(log: map<EventKey, WebhookRow>, p: Provider, subscription: Option<string>,
                           customer: Option<string>, exclude: string, m: Option<Timestamp>) {
    && (forall k :: k in log && IsBaselineRow(k, log[k], p, subscription, customer, exclude) ==>
          m.Some? && log[k].occurredAt.value <= m.value)
    && (m.Some? ==> exists k :: k in log && IsBaselineRow(k, log[k], p, subscription, customer, exclude)
                                && log[k].occurredAt.value == m.value)
  }

  /** An event is out of date when it is older than the baseline; without one, than the row. */
  predicate IsStale(at: Option<Timestamp>, updatedAt: Timestamp, baseline: Option<Timestamp>) {
    at.Some? && at.value < (if baseline.Some? then baseline.value else updatedAt)
  }

  function Times(log: map<EventKey, WebhookRow>, p: Provider, subscription: Option<string>,
                 customer: Option<string>, exclude: string): set<Timestamp> {
    set k | k in log && IsBaselineRow(k, log[k], p, subscription, customer, exclude) :: log[k].occurredAt.value
  }

  lemma {:induction false} MaximumExists(s: set<int>)
    requires |s| != 0
    ensures exists m :: m in s && forall x :: x in s ==> x <= m
    decreases |s|
  {
    var e := Pick(s);
    if s - {e} == {} {
      assert forall y :: y in s ==> y == e || y in s - {e};
    } else {
      MaximumExists(s - {e});
      var m :| m in s - {e} && forall y :: y in s - {e} ==> y <= m;
      var top := Max(e, m);
      assert top in s;
      forall y | y in s ensures y <= top {
        assert y == e || y in s - {e};
      }
    }
  }

  function LatestOf(s: set<int>): (m: Option<int>)
    ensures m.None? <==> |s| == 0
    ensures m.Some? ==> m.value in s && forall x :: x in s ==> x <= m.value
  {
    if |s| == 0 then None
    else
      MaximumExists(s);
      var m :| m in s && forall x :: x in s ==> x <= m;
      Some(m)
  }

  /** `_latest_processed_dodo_event_occurred_at`: the newest baseline time. */
  function LatestProcessed(log: map<EventKey, WebhookRow>, p: Provider, subscription: Option<string>,
                           customer: Option<string>, exclude: string): (m: Option<Timestamp>)
    ensures IsLatest(log, p, subscription, customer, exclude, m)
  {
    var times := Times(log, p, subscription, customer, exclude);
    var m := LatestOf(times);
    assert forall k :: k in log && IsBaselineRow(k, log[k], p, subscription, customer, exclude) ==>
                         log[k].occurredAt.value in times;
    m
  }

  lemma LatestIsUnique(log: map<EventKey, WebhookRow>, p: Provider, subscription: Option<string>,
                       customer: Option<string>, exclude: string, m: Option<Timestamp>, n: Option<Timestamp>)
    requires IsLatest(log, p, subscription, customer, exclude, m)
    requires IsLatest(log, p, subscription, customer, exclude, n)
    ensures m == n
  {
    if m.Some? {
      var k :| k in log && IsBaselineRow(k, log[k], p, subscription, customer, exclude)
               && log[k].occurredAt.value == m.value;
    }
    if n.Some? {
      var k :| k in log && IsBaselineRow(k, log[k], p, subscription, customer, exclude)
               && log[k].occurredAt.value == n.value;
    }
  }
}
