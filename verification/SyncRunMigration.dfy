/** Migration 037: close the superseded in-flight runs, then build the partial unique index. */
module SyncRunMigration {
  import opened BillingTypes
  import opened Sets

  type RunId = nat
  type IntegrationId = nat

  datatype SyncRun = SyncRun(
    integration: IntegrationId,
    status: string,
    startedAt: Timestamp,
    completedAt: Option<Timestamp>,
    errorMessage: Option<string>)

  const CLOSED_MESSAGE := "Closed by migration mig037: a duplicate in-flight SyncRun existed for this integration "
                          + "before the uniqueness guard was added. Superseded by a newer sync run for the same "
                          + "integration; trigger a new sync if needed."

  predicate InFlight(r: SyncRun) {
    r.status == "pending" || r.status == "running"
  }

  /** The in-flight runs of one integration. */
  function Competing(runs: map<RunId, SyncRun>, integration: IntegrationId): set<RunId> {
    set id | id in runs && InFlight(runs[id]) && runs[id].integration == integration
  }

  /** The order within one integration: later start first, then the larger id. */
  predicate Supersedes(runs: map<RunId, SyncRun>, a: RunId, b: RunId)
    requires a in runs && b in runs
  {
    runs[a].startedAt > runs[b].startedAt || (runs[a].startedAt == runs[b].startedAt && a > b)
  }

  /** `SELECT DISTINCT ON (integration_id) id ... ORDER BY integration_id, started_at DESC, id DESC`:
      of each integration the in-flight run that comes first. */
  predicate IsSurvivor(runs: map<RunId, SyncRun>, id: RunId)
    requires id in runs
  {
    && InFlight(runs[id])
    && forall other :: other in Competing(runs, runs[id].integration) && other != id ==> Supersedes(runs, id, other)
  }

  function Closed(r: SyncRun, now: Timestamp): SyncRun {
    r.(status := "failed", completedAt := Some(now), errorMessage := Some(CLOSED_MESSAGE))
  }

  function Deduplicated(runs: map<RunId, SyncRun>, now: Timestamp): map<RunId, SyncRun> {
    map id | id in runs :: if InFlight(runs[id]) && !IsSurvivor(runs, id) then Closed(runs[id], now) else runs[id]
  }

  /** What the partial unique index demands. */
  predicate IndexHolds(runs: map<RunId, SyncRun>) {
    forall a, b :: a in runs && b in runs && InFlight(runs[a]) && InFlight(runs[b]) && a != b ==>
                     runs[a].integration != runs[b].integration
  }

  class SyncRunsTable {
    var runs: map<RunId, SyncRun>
    var hasUniqueIndex: bool

    constructor (runs: map<RunId, SyncRun>)
      ensures this.runs == runs && !hasUniqueIndex
    {
      this.runs, hasUniqueIndex := runs, false;
    }

    /** `CREATE UNIQUE INDEX` fails on a table that violates it. */
    method CreateUniqueIndex() returns (o: WriteOutcome)
      modifies this`hasUniqueIndex
      ensures o.Pass? <==> IndexHolds(runs)
      ensures hasUniqueIndex == (old(hasUniqueIndex) || o.Pass?)
    {
      if !IndexHolds(runs) {
        return Fail;
      }
      hasUniqueIndex := true;
      return Pass;
    }

    /** `upgrade`: the update, then the index, which always builds. */
    method Upgrade(now: Timestamp) returns (o: WriteOutcome)
      modifies this
      ensures o.Pass? && hasUniqueIndex
      ensures runs == Deduplicated(old(runs), now) && IndexHolds(runs)
    {
      IndexBuilds(runs, now);
      runs := Deduplicated(runs, now);
      o := CreateUniqueIndex();
    }
  }

  lemma {:induction false} NewestExists(runs: map<RunId, SyncRun>, ids: set<RunId>)
    requires |ids| != 0 && forall id :: id in ids ==> id in runs
    ensures exists top :: top in ids && forall id :: id in ids && id != top ==> Supersedes(runs, top, id)
    decreases |ids|
  {
    var e := Pick(ids);
    var rest := ids - {e};
    if |rest| == 0 {
      assert forall id :: id in ids ==> id == e || id in rest;
    } else {
      NewestExists(runs, rest);
      var top :| top in rest && forall id :: id in rest && id != top ==> Supersedes(runs, top, id);
      var newest := if Supersedes(runs, e, top) then e else top;
      assert newest in ids;
      forall id | id in ids && id != newest ensures Supersedes(runs, newest, id) {
        assert id == e || id in rest;
      }
    }
  }

  lemma IndexBuilds(runs: map<RunId, SyncRun>, now: Timestamp)
    ensures IndexHolds(Deduplicated(runs, now))
  {
    var n := Deduplicated(runs, now);
    forall a, b | a in n && b in n && InFlight(n[a]) && InFlight(n[b]) && n[a].integration == n[b].integration
      ensures a == b
    {
      assert IsSurvivor(runs, a) && IsSurvivor(runs, b);
      assert a in Competing(runs, runs[b].integration) && b in Competing(runs, runs[a].integration);
    }
  }

  /** Every integration that had runs in flight keeps exactly one, the latest by start and
      then by id; one that had none gains none. */
  lemma ExactlyTheNewestSurvives(runs: map<RunId, SyncRun>, now: Timestamp, integration: IntegrationId)
    ensures var before, after := Competing(runs, integration), Competing(Deduplicated(runs, now), integration);
            if |before| == 0 then after == {}
            else exists top :: && after == {top} && top in before
                               && forall id :: id in before && id != top ==> Supersedes(runs, top, id)
  {
    var n := Deduplicated(runs, now);
    var before, after := Competing(runs, integration), Competing(n, integration);
    assert forall id :: id in after <==> id in before && IsSurvivor(runs, id);
    if |before| == 0 {
      assert after == {};
    } else {
      NewestExists(runs, before);
      var top :| top in before && forall id :: id in before && id != top ==> Supersedes(runs, top, id);
      assert IsSurvivor(runs, top);
      forall id | id in after ensures id == top {
        assert IsSurvivor(runs, id) && top in Competing(runs, runs[id].integration);
      }
      assert after == {top};
    }
  }

  /** No row appears or disappears, and a row is touched exactly when it was in flight and
      another run of its integration supersedes it; it keeps its integration and start. */
  lemma OnlySupersededRunsChange(runs: map<RunId, SyncRun>, now: Timestamp, id: RunId)
    requires id in runs
    ensures var n := Deduplicated(runs, now);
            && n.Keys == runs.Keys
            && (n[id] != runs[id] <==>
                && InFlight(runs[id])
                && exists other :: other in Competing(runs, runs[id].integration) && Supersedes(runs, other, id))
            && (n[id] != runs[id] ==> n[id] == Closed(runs[id], now))
            && n[id].integration == runs[id].integration && n[id].startedAt == runs[id].startedAt
  {
    if InFlight(runs[id]) && !IsSurvivor(runs, id) {
      var other :| other in Competing(runs, runs[id].integration) && other != id && !Supersedes(runs, id, other);
      assert Supersedes(runs, other, id);
    }
  }

  /** Another pending or running run of the integration started later, or at the same time
      with a larger id. */
  predicate IsOutranked(runs: map<RunId, SyncRun>, id: RunId)
    requires id in runs
  {
    exists other :: && other in runs && runs[other].integration == runs[id].integration
                    && (runs[other].status == "pending" || runs[other].status == "running")
                    && (runs[other].startedAt > runs[id].startedAt
                        || (runs[other].startedAt == runs[id].startedAt && other > id))
  }

  lemma OutrankedExactly(runs: map<RunId, SyncRun>, id: RunId)
    requires id in runs
    ensures IsOutranked(runs, id)
            <==> exists other :: other in Competing(runs, runs[id].integration) && Supersedes(runs, other, id)
  {
    if other :| && other in runs && runs[other].integration == runs[id].integration
                && (runs[other].status == "pending" || runs[other].status == "running")
                && (runs[other].startedAt > runs[id].startedAt
                    || (runs[other].startedAt == runs[id].startedAt && other > id)) {
      assert other in Competing(runs, runs[id].integration) && Supersedes(runs, other, id);
    }
    if other :| other in Competing(runs, runs[id].integration) && Supersedes(runs, other, id) {
      assert InFlight(runs[other]);
    }
  }

  /** Row by row: a pending or running one that is outranked is closed now, as failed and with
      the message; any other row stays as it is. */
  lemma RowsAfterUpgrade(runs: map<RunId, SyncRun>, now: Timestamp, id: RunId)
    requires id in runs
    ensures var n, r := Deduplicated(runs, now), runs[id];
            && n.Keys == runs.Keys
            && n[id] == if (r.status == "pending" || r.status == "running") && IsOutranked(runs, id)
                        then SyncRun(r.integration, "failed", r.startedAt, Some(now), Some(CLOSED_MESSAGE))
                        else r
  {
    OnlySupersededRunsChange(runs, now, id);
    OutrankedExactly(runs, id);
    assert InFlight(runs[id]) ==> Closed(runs[id], now) != runs[id] by {
      assert "failed" != "pending" && "failed" != "running" && |"failed"| == 6;
    }
  }

  /** A table is left alone exactly when the index would have built without the update. */
  lemma UntouchedExactlyWhenClean(runs: map<RunId, SyncRun>, now: Timestamp)
    ensures Deduplicated(runs, now) == runs <==> IndexHolds(runs)
  {
    if IndexHolds(runs) {
      forall id | id in runs && InFlight(runs[id]) ensures IsSurvivor(runs, id) {
      }
      assert Deduplicated(runs, now) == runs;
    } else if Deduplicated(runs, now) == runs {
      IndexBuilds(runs, now);
    }
  }

  /** A second upgrade, at whatever time, changes nothing. */
  lemma UpgradeIsIdempotent(runs: map<RunId, SyncRun>, now: Timestamp, later: Timestamp)
    ensures Deduplicated(Deduplicated(runs, now), later) == Deduplicated(runs, now)
  {
    IndexBuilds(runs, now);
    UntouchedExactlyWhenClean(Deduplicated(runs, now), later);
  }
}
