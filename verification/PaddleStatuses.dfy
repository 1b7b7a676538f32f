/** The statuses Paddle rows hold, and what re-reading them means for the workspace. */
module PaddleStatuses {
  import opened BillingTypes
  import opened Entitlements
  import opened PaddleProcessor
  import opened Runs

  /** The statuses a Paddle delivery can bring a row to are exactly the writable ones. */
  lemma DeliveriesWriteExactly(s: Status)
    ensures (exists row: Subscription, e :: row.status != s && NextPaddleStatus(row, e) == s) <==> PaddleWritable(s)
  {
    if PaddleWritable(s) {
      var other := if s == Active then Paused else Active;
      var row := Subscription(Paddle, None, None, Team, Month, other, 20, 0, None, None, false, None, NoEvent, 0, 0);
      var e := PaddleEvent("id", SubscriptionUpdated, None, None, None, None, Some(StatusValue(s)));
      PaddleStoredStatusIsFixed(s);
      assert row.status != s && NextPaddleStatus(row, e) == s;
    }
  }

  /** Every Paddle row has a writable status. */
  ghost predicate PaddleRowsAreWritable(subs: map<WorkspaceId, Subscription>) {
    forall w :: w in subs && subs[w].provider == Paddle ==> PaddleWritable(subs[w].status)
  }

  lemma StepKeepsWritable(t: Tables, s: Step)
    requires Possible(t, s) && PaddleRowsAreWritable(t.subscriptions)
    ensures PaddleRowsAreWritable(Next(t, s).subscriptions)
  {
    StepFrame(t, s);
    forall w | w in Next(t, s).subscriptions && Next(t, s).subscriptions[w].provider == Paddle
      ensures PaddleWritable(Next(t, s).subscriptions[w].status)
    {
      if RowAt(Next(t, s), w) == RowAt(t, w) {
        assert t.subscriptions[w] == Next(t, s).subscriptions[w];
      } else {
        assert Owner(s) == Paddle && w in t.subscriptions;
      }
    }
  }

  lemma {:induction false} RunKeepsWritable(t: Tables, steps: seq<Step>)
    requires ValidRun(t, steps) && PaddleRowsAreWritable(t.subscriptions)
    ensures PaddleRowsAreWritable(Run(t, steps).subscriptions)
    decreases |steps|
  {
    if steps != [] {
      StepKeepsWritable(t, steps[0]);
      RunKeepsWritable(Next(t, steps[0]), steps[1..]);
    }
  }

  /** After every run, re-reading the stored status of a Paddle row through Paddle's map gives
      the same status, and so the same entitlement decision. */
  lemma RereadingKeepsPaddleEntitlement(t: Tables, steps: seq<Step>, w: WorkspaceId)
    requires ValidRun(t, steps) && PaddleRowsAreWritable(t.subscriptions)
    requires w in Run(t, steps).subscriptions && Run(t, steps).subscriptions[w].provider == Paddle
    ensures var row := Run(t, steps).subscriptions[w];
            var reread := NormalizePaddleStatus(StatusValue(row.status));
            && reread == row.status
            && WorkspaceDecision(row.(status := reread)) == WorkspaceDecision(row)
  {
    RunKeepsWritable(t, steps);
    PaddleStoredStatusIsFixed(Run(t, steps).subscriptions[w].status);
  }
}
