/** The database session and the rows it hands out: what the services mutate step by step. */
module Session {
  import opened BillingTypes
  import opened Idempotency
  import opened Lookup
  import Audit

  /** A subscription row loaded into a session; assignments reach the table at a flush. */
  class SubscriptionEntity {
    const workspace: WorkspaceId
    var provider: Provider
    var customerReference: Option<string>
    var subscriptionReference: Option<string>
    var planId: PlanId
    var billingInterval: BillingInterval
    var status: Status
    var billableSeats: int
    var additionalSeatQuantity: int
    var currentPeriodStart: Option<Timestamp>
    var currentPeriodEnd: Option<Timestamp>
    var cancelAtPeriodEnd: bool
    var gracePeriodEnd: Option<Timestamp>
    var lastProviderEvent: LastEvent
    var version: nat
    var updatedAt: Timestamp

    constructor (workspace: WorkspaceId, s: Subscription)
      ensures this.workspace == workspace && View() == s
    {
      this.workspace := workspace;
      provider, customerReference, subscriptionReference := s.provider, s.customerReference, s.subscriptionReference;
      planId, billingInterval, status := s.planId, s.billingInterval, s.status;
      billableSeats, additionalSeatQuantity := s.billableSeats, s.additionalSeatQuantity;
      currentPeriodStart, currentPeriodEnd := s.currentPeriodStart, s.currentPeriodEnd;
      cancelAtPeriodEnd, gracePeriodEnd := s.cancelAtPeriodEnd, s.gracePeriodEnd;
      lastProviderEvent, version, updatedAt := s.lastProviderEvent, s.version, s.updatedAt;
    }

    /** The row this object stands for. */
    function View(): Subscription
      reads this
    {
      Subscription(provider, customerReference, subscriptionReference, planId, billingInterval, status,
                   billableSeats, additionalSeatQuantity, currentPeriodStart, currentPeriodEnd,
                   cancelAtPeriodEnd, gracePeriodEnd, lastProviderEvent, version, updatedAt)
    }
  }

  /** A row of the webhook log loaded into a session. */
  class WebhookEntity {
    const key: EventKey
    const recorded: WebhookRow
    var processingStatus: ProcessingStatus
    var attemptCount: nat
    var errorCategory: ErrorCategory

    constructor (key: EventKey, r: WebhookRow)
      ensures this.key == key && View() == r
    {
      this.key, recorded := key, r;
      processingStatus, attemptCount, errorCategory := r.processingStatus, r.attemptCount, r.errorCategory;
    }

    function View(): WebhookRow
      reads this
    {
      recorded.(processingStatus := processingStatus, attemptCount := attemptCount, errorCategory := errorCategory)
    }
  }

  /** A write stamps a row with the time only when it changes it. */
  function Stamped(before: Subscription, after: Subscription, now: Timestamp): Subscription {
    if after == before then before else after.(updatedAt := now)
  }

  /** The tables a delivery works on: those another session committed in the meantime, if its
      own insert into the log is refused. */
  function AtInsert(t: Tables, key: EventKey, race: Option<Tables>): Tables {
    if race.Some? && key !in t.log then race.value else t
  }

  /** A refused insert means that somebody else's row is there. */
  predicate IsWon(key: EventKey, race: Option<Tables>) {
    race.Some? ==> key in race.value.log
  }

  /** One session: the tables as its transaction sees them, the tables as last committed,
      and the script of database failures to come, one entry for each write. */
  class Session {
    var tables: Tables
    var committed: Tables
    var faults: seq<bool>

    constructor (committed: Tables, faults: seq<bool>)
      ensures tables == this.committed == committed && this.faults == faults
    {
      tables, this.committed, this.faults := committed, committed, faults;
    }

    method Write() returns (o: WriteOutcome)
      modifies this`faults
      ensures old(faults) == [] ==> o.Pass? && faults == []
    {
      if faults == [] {
        return Pass;
      }
      o := if faults[0] then Fail else Pass;
      faults := faults[1..];
    }

    method Commit() returns (o: WriteOutcome)
      modifies this
      ensures o.Pass? ==> tables == committed == old(tables)
      ensures o.Fail? ==> tables == committed == old(committed)
      ensures old(faults) == [] ==> o.Pass? && faults == []
    {
      o := Write();
      if o.Pass? {
        committed := tables;
      } else {
        tables := committed;
      }
    }

    method Rollback()
      modifies this`tables
      ensures tables == committed
    {
      tables := committed;
    }

    /** `db.flush()` with one loaded row pending. */
    method FlushSubscription(sub: SubscriptionEntity, now: Timestamp) returns (o: WriteOutcome)
      requires sub.workspace in tables.subscriptions
      modifies this`tables, this`faults, sub`updatedAt
      ensures o.Pass? ==>
                && sub.View() == Stamped(old(tables.subscriptions[sub.workspace]), old(sub.View()), now)
                && tables == old(tables).(subscriptions := old(tables.subscriptions)[sub.workspace := sub.View()])
      ensures o.Fail? ==> tables == old(tables) && sub.View() == old(sub.View())
      ensures old(faults) == [] ==> o.Pass? && faults == []
    {
      o := Write();
      if o.Fail? {
        return;
      }
      if sub.View() != tables.subscriptions[sub.workspace] {
        sub.updatedAt := now;
      } else {
        sub.updatedAt := tables.subscriptions[sub.workspace].updatedAt;
      }
      tables := tables.(subscriptions := tables.subscriptions[sub.workspace := sub.View()]);
      o := Pass;
    }

    method FlushEvent(event: WebhookEntity) returns (o: WriteOutcome)
      modifies this`tables, this`faults
      ensures o.Pass? ==> tables == old(tables).(log := old(tables.log)[event.key := event.View()])
      ensures o.Fail? ==> tables == old(tables)
      ensures old(faults) == [] ==> o.Pass? && faults == []
    {
      o := Write();
      if o.Fail? {
        return;
      }
      tables := tables.(log := tables.log[event.key := event.View()]);
      o := Pass;
    }

    /** Insert the first row of a workspace. */
    method AddSubscription(w: WorkspaceId, row: Subscription) returns (o: WriteOutcome)
      requires w !in tables.subscriptions
      modifies this`tables, this`faults
      ensures o.Pass? ==> tables == old(tables).(subscriptions := old(tables.subscriptions)[w := row])
      ensures o.Fail? ==> tables == old(tables)
      ensures old(faults) == [] ==> o.Pass? && faults == []
    {
      o := Write();
      if o.Fail? {
        return;
      }
      tables := tables.(subscriptions := tables.subscriptions[w := row]);
      o := Pass;
    }

    /** `record_audit_event`: append one entry, its details filtered. The flush carries the
        pending changes of `sub` along. */
    method RecordAuditEvent(w: WorkspaceId, t: AuditEventType, p: Provider, details: map<DetailKey, DetailValue>,
                            sub: SubscriptionEntity, now: Timestamp) returns (o: WriteOutcome)
      requires sub.workspace in tables.subscriptions
      modifies this`tables, this`faults, sub`updatedAt
      ensures o.Pass? ==>
                && sub.View() == Stamped(old(tables.subscriptions[sub.workspace]), old(sub.View()), now)
                && tables == old(tables).(subscriptions := old(tables.subscriptions)[sub.workspace := sub.View()],
                                          audit := old(tables.audit) + [Audit.Entry(w, t, p, details)])
      ensures o.Pass? && old(sub.View()) == old(tables.subscriptions[sub.workspace]) ==>
                sub.View() == old(sub.View()) && tables.subscriptions == old(tables.subscriptions)
      ensures old(faults) == [] ==> o.Pass? && faults == []
    {
      var safeDetails := map k | k in details && k in Audit.ALLOWED_DETAIL_KEYS :: details[k];
      :- FlushSubscription(sub, now);
      tables := tables.(audit := tables.audit + [AuditEvent(w, t, Some(p), safeDetails)]);
      o := Pass;
    }

    /** `check_and_record_pending`. `race` holds the tables other sessions have committed when
        the insert is refused by the log's unique key: the loser then rolls back and works on
        the winner's row, or raises when there is none. */
    method CheckAndRecordPending(key: EventKey, row: WebhookRow, race: Option<Tables>)
      returns (o: WriteOutcome, event: WebhookEntity)
      modifies this
      ensures fresh(event) && event.key == key
      ensures committed == if race.Some? && key !in old(tables.log) then race.value else old(committed)
      ensures o.Pass? ==>
                && tables == AtInsert(old(tables), key,
                                      race).(log := RecordPending(AtInsert(old(tables), key, race).log,
                                                                                    key, row))
                && event.View() == tables.log[key]
      ensures o.Fail? ==> tables == AtInsert(old(tables), key, race)
      ensures race.Some? && key !in old(tables.log) ==> (o.Pass? <==> key in race.value.log)
      ensures old(faults) == [] && IsWon(key, race) ==> o.Pass? && faults == []
    {
      if key in tables.log {
        event := new WebhookEntity(key, tables.log[key]);
        return Pass, event;
      }
      event := new WebhookEntity(key, row);
      if race.None? {
        :- FlushEvent(event);
        return Pass, event;
      }
      committed := race.value;
      Rollback();
      if key !in tables.log {
        return Fail, event;
      }
      event := new WebhookEntity(key, tables.log[key]);
      return Pass, event;
    }

    method MarkProcessed(event: WebhookEntity) returns (o: WriteOutcome)
      modifies this`tables, this`faults, event
      ensures o.Pass? ==>
                tables == old(tables).(log := old(tables.log)[event.key := MarkedProcessed(old(event.View()))])
      ensures old(faults) == [] ==> o.Pass? && faults == []
    {
      event.processingStatus := Processed;
      event.attemptCount := event.attemptCount + 1;
      event.errorCategory := NoError;
      o := FlushEvent(event);
    }

    method MarkFailed(event: WebhookEntity, category: ErrorCategory) returns (o: WriteOutcome)
      modifies this`tables, this`faults, event
      ensures o.Pass? ==>
                tables == old(tables).(log := old(tables.log)[event.key := MarkedFailed(old(event.View()), category)])
      ensures old(faults) == [] ==> o.Pass? && faults == []
    {
      event.processingStatus := Failed;
      event.attemptCount := event.attemptCount + 1;
      event.errorCategory := category;
      o := FlushEvent(event);
    }

    method MarkDuplicateIgnored(event: WebhookEntity) returns (o: WriteOutcome)
      modifies this`tables, this`faults, event
      ensures o.Pass? ==>
                tables == old(tables).(log := old(tables.log)[event.key := MarkedDuplicate(old(event.View()))])
      ensures old(faults) == [] ==> o.Pass? && faults == []
    {
      event.processingStatus := DuplicateIgnored;
      o := FlushEvent(event);
    }

    /** The two `.first()` queries of a reference lookup. */
    method FindSubscription(p: Provider, subscription: Option<string>, customer: Option<string>)
      returns (found: Option<WorkspaceId>)
      ensures IsFirstMatch(tables.subscriptions, p, subscription, customer, found)
    {
      if Truthy(subscription) {
        if w :| w in tables.subscriptions && HasSubscriptionReference(tables.subscriptions[w], p, subscription) {
          return Some(w);
        }
      }
      if Truthy(customer) {
        if w :| w in tables.subscriptions && HasCustomerReference(tables.subscriptions[w], p, customer) {
          return Some(w);
        }
      }
      return None;
    }

    /** `_latest_processed_dodo_event_occurred_at`: the newest time by subscription, the
        newest by customer, and the later of the two. */
    method LatestProcessedOccurredAt(subscription: Option<string>, customer: Option<string>, exclude: string)
      returns (latest: Option<Timestamp>)
      ensures latest == LatestProcessed(tables.log, Dodo, subscription, customer, exclude)
    {
      var candidates := [];
      if Truthy(subscription) {
        var row := LatestProcessed(tables.log, Dodo, subscription, None, exclude);
        if row.Some? {
          candidates := candidates + [row.value];
        }
      }
      if Truthy(customer) {
        var row := LatestProcessed(tables.log, Dodo, None, customer, exclude);
        if row.Some? {
          candidates := candidates + [row.value];
        }
      }
      latest := if |candidates| == 0 then None
                else if |candidates| == 1 then Some(candidates[0])
                else Some(Max(candidates[0], candidates[1]));
      LatestSplits(tables.log, subscription, customer, exclude);
    }
  }

  /** The baseline over both references is the later of the baselines over each. */
  lemma LatestSplits(log: map<EventKey, WebhookRow>, subscription: Option<string>, customer: Option<string>,
                     exclude: string)
    ensures var s := LatestProcessed(log, Dodo, subscription, None, exclude);
            var c := LatestProcessed(log, Dodo, None, customer, exclude);
            LatestProcessed(log, Dodo, subscription, customer, exclude)
            == if s.None? then c else if c.None? then s else Some(Max(s.value, c.value))
  {
    var s := LatestProcessed(log, Dodo, subscription, None, exclude);
    var c := LatestProcessed(log, Dodo, None, customer, exclude);
    var both := if s.None? then c else if c.None? then s else Some(Max(s.value, c.value));
    forall k | k in log && IsBaselineRow(k, log[k], Dodo, subscription, customer, exclude)
      ensures both.Some? && log[k].occurredAt.value <= both.value
    {
      assert IsBaselineRow(k, log[k], Dodo, subscription, None, exclude)
             || IsBaselineRow(k, log[k], Dodo, None, customer, exclude);
    }
    if both.Some? {
      if s.Some? && both == s {
        var k :| k in log && IsBaselineRow(k, log[k], Dodo, subscription, None, exclude)
                 && log[k].occurredAt.value == s.value;
        assert IsBaselineRow(k, log[k], Dodo, subscription, customer, exclude);
      } else {
        var k :| k in log && IsBaselineRow(k, log[k], Dodo, None, customer, exclude)
                 && log[k].occurredAt.value == c.value;
        assert IsBaselineRow(k, log[k], Dodo, subscription, customer, exclude);
      }
    }
    assert IsLatest(log, Dodo, subscription, customer, exclude, both);
    LatestIsUnique(log, Dodo, subscription, customer, exclude, both,
                   LatestProcessed(log, Dodo, subscription, customer, exclude));
  }
}
