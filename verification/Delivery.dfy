/** Repeated and failing deliveries: the effect of an event happens at most once, and an
    attempt that fails leaves nothing behind but its record in the log. */
module Delivery {
  import opened BillingTypes
  import opened Idempotency
  import opened DodoEvents
  import opened DodoProcessor
  import opened DeliveryShape
  import opened PaddleProcessor
  import opened Runs

  function DeliveryKey(s: Step): Option<EventKey> {
    match s
    case DodoDelivery(e, _, _, _) => Some(Key(e))
    case PaddleDelivery(e, _, _, _) => Some(PaddleKey(e))
    case _ => None
  }

  /** The step changed a subscription or wrote an audit entry. */
  predicate HasEffect(t: Tables, s: Step)
    requires Possible(t, s)
  {
    Next(t, s).subscriptions != t.subscriptions || Next(t, s).audit != t.audit
  }

  /** A delivery with an effect settles its event, and only an unsettled event can have one. */
  lemma EffectSettles(t: Tables, s: Step, k: EventKey)
    requires Possible(t, s) && DeliveryKey(s) == Some(k) && HasEffect(t, s)
    ensures !SettledIn(t, k) && SettledIn(Next(t, s), k)
  {
  }

  lemma SettledStays(t: Tables, s: Step, k: EventKey)
    requires Possible(t, s) && SettledIn(t, k)
    ensures SettledIn(Next(t, s), k)
  {
    if s.DodoDelivery? {
      DeliveryLogRow(t, s.event, s.env, s.found, s.raised);
    }
  }

  /** How many deliveries of an event had an effect. */
  function Effects(t: Tables, steps: seq<Step>, k: EventKey): nat
    requires ValidRun(t, steps)
    decreases |steps|
  {
    if steps == [] then 0
    else
      (if DeliveryKey(steps[0]) == Some(k) && HasEffect(t, steps[0]) then 1 else 0)
      + Effects(Next(t, steps[0]), steps[1..], k)
  }

  /** However often an event is delivered, and whatever happens in between, at most one of
      its deliveries changes a subscription or the audit log; none does once it is settled. */
  lemma {:induction false} EffectAtMostOnce(t: Tables, steps: seq<Step>, k: EventKey)
    requires ValidRun(t, steps)
    ensures Effects(t, steps, k) <= if SettledIn(t, k) then 0 else 1
    decreases |steps|
  {
    if steps != [] {
      var n := Next(t, steps[0]);
      EffectAtMostOnce(n, steps[1..], k);
      if SettledIn(t, k) {
        SettledStays(t, steps[0], k);
      }
      if DeliveryKey(steps[0]) == Some(k) && HasEffect(t, steps[0]) {
        EffectSettles(t, steps[0], k);
      }
    }
  }

  function AttemptsRecorded(t: Tables, k: EventKey): nat {
    if k in t.log then t.log[k].attemptCount else 0
  }

  /** A delivery that counts as an attempt: not a duplicate, and not a Paddle one that raised. */
  predicate IsAttempt(t: Tables, s: Step, k: EventKey) {
    DeliveryKey(s) == Some(k) && !SettledIn(t, k) && !(s.PaddleDelivery? && s.raised)
  }

  function Attempts(t: Tables, steps: seq<Step>, k: EventKey): nat
    requires ValidRun(t, steps)
    decreases |steps|
  {
    if steps == [] then 0
    else (if IsAttempt(t, steps[0], k) then 1 else 0) + Attempts(Next(t, steps[0]), steps[1..], k)
  }

  predicate LogRowFrame(t: Tables, n: Tables, k: EventKey, delivered: bool, attempted: bool) {
    && (k in t.log ==> k in n.log && Recorded(n.log[k]) == Recorded(t.log[k]))
    && AttemptsRecorded(n, k) == AttemptsRecorded(t, k) + (if attempted then 1 else 0)
    && (!delivered ==> (k in n.log <==> k in t.log) && (k in t.log ==> n.log[k] == t.log[k]))
  }

  lemma DodoDeliveryLogFrame(t: Tables, e: DodoEvent, env: Env, found: Option<WorkspaceId>, raised: bool, k: EventKey)
    requires found.Some? ==> found.value in t.subscriptions
    ensures LogRowFrame(t, After(t, e, env, found, raised), k, k == Key(e), k == Key(e) && !SettledIn(t, k))
  {
    DeliveryLogRow(t, e, env, found, raised);
  }

  lemma PaddleDeliveryLogFrame(t: Tables, e: PaddleEvent, env: Env, found: Option<WorkspaceId>, raised: bool,
                               k: EventKey)
    requires found.Some? ==> found.value in t.subscriptions
    ensures LogRowFrame(t, AfterPaddle(t, e, env, found, raised), k, k == PaddleKey(e),
                        k == PaddleKey(e) && !SettledIn(t, k) && !raised)
  {
    var begun := BeginPaddle(t, e);
    assert ApplyPaddle(begun, e, env, found).log == begun.log;
  }

  lemma StepLogFrame(t: Tables, s: Step, k: EventKey)
    requires Possible(t, s)
    ensures LogRowFrame(t, Next(t, s), k, DeliveryKey(s) == Some(k), IsAttempt(t, s, k))
  {
    match s
    case DodoDelivery(e, env, found, raised) => DodoDeliveryLogFrame(t, e, env, found, raised, k);
    case PaddleDelivery(e, env, found, raised) => PaddleDeliveryLogFrame(t, e, env, found, raised, k);
    case _ =>
  }

  /** Over any run the attempt counter of an event grows by exactly the attempts made, and
      what its first delivery recorded about it never changes. */
  lemma {:induction false} AttemptsAreCounted(t: Tables, steps: seq<Step>, k: EventKey)
    requires ValidRun(t, steps)
    ensures AttemptsRecorded(Run(t, steps), k) == AttemptsRecorded(t, k) + Attempts(t, steps, k)
    ensures k in t.log ==> k in Run(t, steps).log && Recorded(Run(t, steps).log[k]) == Recorded(t.log[k])
    decreases |steps|
  {
    if steps != [] {
      StepLogFrame(t, steps[0], k);
      AttemptsAreCounted(Next(t, steps[0]), steps[1..], k);
    }
  }

  /** What each outcome of a Dodo delivery means for the tables. */
  lemma OutcomesAndEffects(t: Tables, e: DodoEvent, env: Env, found: Option<WorkspaceId>, raised: bool)
    requires found.Some? ==> found.value in t.subscriptions
    ensures var (n, outcome) := Process(t, e, env, found, raised);
            && n.workspaces == t.workspaces
            && (forall k :: k != Key(e) ==> (k in n.log <==> k in t.log) && (k in t.log ==> n.log[k] == t.log[k]))
            && (outcome != Delivered ==> n.subscriptions == t.subscriptions && n.audit == t.audit)
            && (outcome == Duplicate <==> SettledIn(t, Key(e)))
            && (outcome == Raised <==> raised && !SettledIn(t, Key(e)))
            && (outcome == Unresolved ==> IsLifecycle(e.eventType) && found == None && !CanCreate(t, e)
                                          && n.log[Key(e)].errorCategory == UnknownReference)
            && Key(e) in n.log
            && n.log[Key(e)].processingStatus == (match outcome
                                                  case Duplicate => DuplicateIgnored
                                                  case Delivered => Processed
                                                  case Acknowledged => Processed
                                                  case Unresolved => Failed
                                                  case Raised => Failed)
  {
    DeliveryLogRow(t, e, env, found, raised);
  }

  /** A raising attempt leaves subscriptions and audit at the last commit, and durably
      records one failed row whose attempt count went up by one. */
  lemma RaisingAttemptIsAtomic(t: Tables, e: DodoEvent, env: Env, found: Option<WorkspaceId>)
    requires found.Some? ==> found.value in t.subscriptions
    requires !SettledIn(t, Key(e))
    ensures var n := After(t, e, env, found, true);
            && n == t.(log := n.log)
            && n.log.Keys == t.log.Keys + {Key(e)}
            && (forall k :: k in t.log && k != Key(e) ==> n.log[k] == t.log[k])
            && n.log[Key(e)].processingStatus == Failed
            && n.log[Key(e)].errorCategory == Unexpected
            && n.log[Key(e)].attemptCount == 1 + (if Key(e) in t.log then t.log[Key(e)].attemptCount else 0)
  {
  }

  /** A Paddle delivery of an unsettled event whose attempt raises. */
  predicate IsRaisingPaddleAttempt(t: Tables, s: Step) {
    s.PaddleDelivery? && s.raised && !SettledIn(t, PaddleKey(s.paddle))
  }

  /** The run without the Paddle attempts that raised in it. */
  function WithoutRaisingPaddle(t: Tables, steps: seq<Step>): seq<Step>
    requires ValidRun(t, steps)
    decreases |steps|
  {
    if steps == [] then []
    else
      (if IsRaisingPaddleAttempt(t, steps[0]) then [] else [steps[0]])
          + WithoutRaisingPaddle(Next(t, steps[0]), steps[1..])
  }

  /** The Paddle service marks a raising delivery failed, and its route rolls that back too: in
      every run, the Paddle attempts that raised might as well not have happened. */
  lemma {:induction false} RaisingPaddleAttemptsLeaveNoTrace(t: Tables, steps: seq<Step>)
    requires ValidRun(t, steps)
    ensures ValidRun(t, WithoutRaisingPaddle(t, steps))
    ensures Run(t, WithoutRaisingPaddle(t, steps)) == Run(t, steps)
    decreases |steps|
  {
    if steps != [] {
      var n, rest := Next(t, steps[0]), WithoutRaisingPaddle(Next(t, steps[0]), steps[1..]);
      RaisingPaddleAttemptsLeaveNoTrace(n, steps[1..]);
      if IsRaisingPaddleAttempt(t, steps[0]) {
        assert n == t;
        assert [] + rest == rest;
      } else {
        assert ([steps[0]] + rest)[1..] == rest;
      }
    }
  }

  lemma BaselineIgnoresOwnRow(a: map<EventKey, WebhookRow>, b: map<EventKey, WebhookRow>, e: DodoEvent)
    requires forall k :: k != Key(e) ==> (k in a <==> k in b) && (k in a ==> a[k] == b[k])
    ensures LatestProcessed(a, Dodo, e.subscriptionReference, e.customerReference, e.externalEventId)
         == LatestProcessed(b, Dodo, e.subscriptionReference, e.customerReference, e.externalEventId)
  {
    var m := LatestProcessed(a, Dodo, e.subscriptionReference, e.customerReference, e.externalEventId);
    var n := LatestProcessed(b, Dodo, e.subscriptionReference, e.customerReference, e.externalEventId);
    forall k | IsBaselineRow(k, if k in a then a[k] else FreshRow(e), Dodo,
                             e.subscriptionReference, e.customerReference, e.externalEventId)
      ensures k != Key(e)
    {
    }
    assert IsLatest(b, Dodo, e.subscriptionReference, e.customerReference, e.externalEventId, m);
    LatestIsUnique(b, Dodo, e.subscriptionReference, e.customerReference, e.externalEventId, m, n);
  }

  /** Applying an event does not read the event's own row of the log. */
  lemma ApplyIgnoresOwnRow(t: Tables, log: map<EventKey, WebhookRow>, e: DodoEvent, env: Env,
                           found: Option<WorkspaceId>)
    requires found.Some? ==> found.value in t.subscriptions
    requires forall k :: k != Key(e) ==> (k in log <==> k in t.log) && (k in log ==> log[k] == t.log[k])
    ensures Apply(t.(log := log), e, env, found) == (Apply(t, e, env, found).0.(log := log), Apply(t, e, env, found).1)
  {
    BaselineIgnoresOwnRow(log, t.log, e);
  }

  /** `retried` is `direct` with one more attempt counted on the event. */
  predicate OneMoreAttempt(direct: (Tables, Outcome), retried: (Tables, Outcome), k: EventKey) {
    && retried.1 == direct.1
    && k in direct.0.log && k in retried.0.log
    && var row := direct.0.log[k];
       retried.0 == direct.0.(log := direct.0.log[k := row.(attemptCount := row.attemptCount + 1)])
  }

  lemma ConcludeAfterFailure(applied: Tables, category: Option<ErrorCategory>, k: EventKey, pending: WebhookRow)
    ensures var failed := MarkedFailed(pending, Unexpected);
            OneMoreAttempt(Conclude((applied, category), k, pending),
                           Conclude((applied.(log := applied.log[k := failed]), category), k, failed), k)
  {
  }

  /** A failed attempt is invisible to the retry: delivering the event after it has the
      effect and the outcome it would have had without it, one more attempt counted. */
  lemma FailedAttemptIsInvisible(t: Tables, e: DodoEvent, env: Env, retryEnv: Env, found: Option<WorkspaceId>,
                                 first: Option<WorkspaceId>)
    requires found.Some? ==> found.value in t.subscriptions
    requires first.Some? ==> first.value in t.subscriptions
    requires !SettledIn(t, Key(e))
    ensures OneMoreAttempt(Process(t, e, retryEnv, found, false),
                           Process(After(t, e, env, first, true), e, retryEnv, found, false), Key(e))
  {
    var begun := Begin(t, e);
    var failed := FailedAttempt(t, e, Unexpected);
    assert After(t, e, env, first, true) == failed;
    assert Begin(failed, e) == failed == begun.(log := failed.log);
    if e.eventType != Unknown {
      ApplyIgnoresOwnRow(begun, failed.log, e, retryEnv, found);
      var applied := Apply(begun, e, retryEnv, found);
      ConcludeAfterFailure(applied.0, applied.1, Key(e), begun.log[Key(e)]);
      assert applied.0.log == begun.log;
    }
  }
}
