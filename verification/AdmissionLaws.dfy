// What every ledger transaction keeps, and what an applied snapshot does.

module AdmissionLaws {
  import opened Wrappers
  import opened Text
  import opened Commands
  import opened Admissions

  // No draw from `issued` on has produced this id.
  ghost predicate Drawn(revocationId: string, issued: nat) {
    forall n: nat | n >= issued :: revocationId != IssuedRevocationId(n)
  }

  // Ids not drawn yet are not in the table, and the key columns are unique.
  ghost predicate Consistent(t: Tables) {
    && PrimaryKey(t.holds)
    && (forall e | e in t.holds :: t.holds[e].revision >= 1 && Drawn(t.holds[e].revocationId, t.issued))
  }

  lemma AdoptedIdIsDrawn(envKey: string, offboardId: string, issued: nat)
    ensures Drawn(AdoptedRevocationId(envKey, offboardId), issued)
  {
    forall n: nat | n >= issued ensures AdoptedRevocationId(envKey, offboardId) != IssuedRevocationId(n) {
      IssuedIsNotAdopted(n, envKey, offboardId);
    }
  }

  lemma NextIdIsDrawn(issued: nat)
    ensures Drawn(IssuedRevocationId(issued), issued + 1)
  {
    forall n: nat | n > issued ensures IssuedRevocationId(issued) != IssuedRevocationId(n) {
      IssuedIdsDiffer(n, issued);
    }
  }

  // ---------- Adoption and release ----------

  ghost predicate Adopts(holds: map<string, Hold>, rows: seq<SnapshotRow>, target: Target, now: int,
                         adopted: map<string, Hold>)
  {
    && adopted.Keys == holds.Keys + EnvKeys(rows)
    && (forall e | e in holds :: adopted[e] == holds[e])
    && (forall e | e in EnvKeys(rows) - holds.Keys :: adopted[e] == AdoptedHold(RowOf(rows, e), target, now))
  }

  lemma AdoptsOneMore(holds: map<string, Hold>, rows: seq<SnapshotRow>, target: Target, now: int,
                      adopted: map<string, Hold>)
    requires rows != []
    requires var next := if rows[0].envKey in holds then holds
                         else holds[rows[0].envKey := AdoptedHold(rows[0], target, now)];
      Adopts(next, rows[1..], target, now, adopted)
    ensures Adopts(holds, rows, target, now, adopted)
  {
    hide AdoptedHold;
    EnvKeysCons(rows);
  }

  lemma {:induction false} AdoptMissingEffect(holds: map<string, Hold>, rows: seq<SnapshotRow>, target: Target,
                                              now: int)
    requires AdoptMissing(holds, rows, target, now).Some?
    ensures var adopted := AdoptMissing(holds, rows, target, now).value;
      Adopts(holds, rows, target, now, adopted) && (PrimaryKey(holds) ==> PrimaryKey(adopted))
    decreases |rows|
  {
    hide AdoptedHold, Adopts;
    if rows == [] {
      NothingAdopted(holds, target, now);
    } else {
      var row := rows[0];
      var next := if row.envKey in holds then holds else holds[row.envKey := AdoptedHold(row, target, now)];
      AdoptMissingEffect(next, rows[1..], target, now);
      AdoptsOneMore(holds, rows, target, now, AdoptMissing(holds, rows, target, now).value);
      assert PrimaryKey(holds) ==> PrimaryKey(next);
    }
  }

  lemma NothingAdopted(holds: map<string, Hold>, target: Target, now: int)
    ensures Adopts(holds, [], target, now, holds)
  {
  }

  // A delivery that passes every check, so that the snapshot is applied.
  predicate AppliesSnapshot(t: Tables, target: Target, c: Command, now: int)
    requires c.Reconcile?
  {
    && Valid(c)
    && AllAssigned(t.holds)
    && ReadCommand(t, target, c).Missing?
    && Advances(t, target, c.observedAt)
    && ApplySnapshot(t, target, c, now).Committed?
  }

  lemma AppliedSnapshotTables(t: Tables, target: Target, c: Command, now: int)
    requires c.Reconcile? && AppliesSnapshot(t, target, c, now)
    ensures AdoptMissing(t.holds, c.rows, target, now).Some?
    ensures var adopted := AdoptMissing(t.holds, c.rows, target, now).value;
      var o := ReconcileTx(t, target, c, now);
      && o.Committed? && !o.reply.duplicate
      && o.tables.holds == Release(adopted, target, c.observedAt, EnvKeys(c.rows))
      && o.reply.receipt == SnapshotReceipt(Count(t.holds, adopted), Count(o.tables.holds, adopted))
      && o.tables.snapshots
         == t.snapshots[target := SnapshotState(c.observedAt, SnapshotDigest(c.rows), o.reply.receipt)]
      && o.tables.issued == t.issued
  {
    hide Valid, PayloadHash, SnapshotDigest, AdoptedRevocationId;
  }

  // The rows an applied snapshot adds and removes.
  function AdoptedKeys(holds: map<string, Hold>, rows: seq<SnapshotRow>): set<string> {
    EnvKeys(rows) - holds.Keys
  }

  function ReleasedKeys(holds: map<string, Hold>, target: Target, observedAt: int,
                        rows: seq<SnapshotRow>): set<string> {
    set e | e in holds && Releasable(holds[e], e, target, observedAt, EnvKeys(rows))
  }

  lemma ReleaseKeys(holds: map<string, Hold>, adopted: map<string, Hold>, rows: seq<SnapshotRow>,
                    target: Target, observedAt: int)
    requires adopted.Keys == holds.Keys + EnvKeys(rows)
    requires forall e | e in holds :: adopted[e] == holds[e]
    ensures Release(adopted, target, observedAt, EnvKeys(rows)).Keys
         == adopted.Keys - ReleasedKeys(holds, target, observedAt, rows)
    ensures ReleasedKeys(holds, target, observedAt, rows) <= adopted.Keys
  {
  }

  lemma AdoptThenRelease(holds: map<string, Hold>, rows: seq<SnapshotRow>, target: Target, now: int, observedAt: int)
    requires AdoptMissing(holds, rows, target, now).Some?
    ensures var adopted := AdoptMissing(holds, rows, target, now).value;
      var h := Release(adopted, target, observedAt, EnvKeys(rows));
      && h.Keys == holds.Keys + AdoptedKeys(holds, rows) - ReleasedKeys(holds, target, observedAt, rows)
      && (forall e | e in h && e in holds :: h[e] == holds[e])
      && (forall e | e in AdoptedKeys(holds, rows) :: e in h && h[e] == AdoptedHold(RowOf(rows, e), target, now))
      && (PrimaryKey(holds) ==> PrimaryKey(h))
  {
    hide AdoptedRevocationId;
    AdoptMissingEffect(holds, rows, target, now);
    var adopted := AdoptMissing(holds, rows, target, now).value;
    ReleaseKeys(holds, adopted, rows, target, observedAt);
    var h := Release(adopted, target, observedAt, EnvKeys(rows));
    forall e | e in AdoptedKeys(holds, rows) ensures e in h.Keys {}
  }

  lemma CountLaws(before: map<string, Hold>, adopted: map<string, Hold>, after: map<string, Hold>,
                  gained: set<string>, lost: set<string>)
    requires adopted.Keys == before.Keys + gained && before.Keys !! gained
    requires after.Keys == adopted.Keys - lost && lost <= adopted.Keys
    ensures Count(before, adopted) == |gained| && Count(after, adopted) == |lost|
    ensures |after| == |before| + |gained| - |lost|
  {
    assert |adopted.Keys| == |before.Keys| + |gained|;
    assert adopted.Keys == after.Keys + lost && after.Keys !! lost;
    assert |adopted.Keys| == |after.Keys| + |lost|;
  }

  lemma AdoptThenReleaseCounts(holds: map<string, Hold>, rows: seq<SnapshotRow>, target: Target, now: int,
                               observedAt: int)
    requires AdoptMissing(holds, rows, target, now).Some?
    ensures var adopted := AdoptMissing(holds, rows, target, now).value;
      var h := Release(adopted, target, observedAt, EnvKeys(rows));
      var gained, lost := AdoptedKeys(holds, rows), ReleasedKeys(holds, target, observedAt, rows);
      && Count(holds, adopted) == |gained| && Count(h, adopted) == |lost|
      && |h| == |holds| + |gained| - |lost|
  {
    hide AdoptMissing, Release, Releasable, Count, AdoptedHold, PrimaryKey;
    AdoptMissingEffect(holds, rows, target, now);
    var adopted := AdoptMissing(holds, rows, target, now).value;
    ReleaseKeys(holds, adopted, rows, target, observedAt);
    CountLaws(holds, adopted, Release(adopted, target, observedAt, EnvKeys(rows)),
              AdoptedKeys(holds, rows), ReleasedKeys(holds, target, observedAt, rows));
  }

  lemma AppliedSnapshotHolds(t: Tables, target: Target, c: Command, now: int)
    requires c.Reconcile? && AppliesSnapshot(t, target, c, now)
    ensures var h := ReconcileTx(t, target, c, now).tables.holds;
      && h.Keys == t.holds.Keys + AdoptedKeys(t.holds, c.rows) - ReleasedKeys(t.holds, target, c.observedAt, c.rows)
      && (forall e | e in h && e in t.holds :: h[e] == t.holds[e])
      && (forall e | e in AdoptedKeys(t.holds, c.rows) :: e in h && h[e] == AdoptedHold(RowOf(c.rows, e), target, now))
      && (PrimaryKey(t.holds) ==> PrimaryKey(h))
  {
    hide Valid, PayloadHash, SnapshotDigest, AdoptedRevocationId;
    AppliedSnapshotTables(t, target, c, now);
    AdoptThenRelease(t.holds, c.rows, target, now, c.observedAt);
  }

  // An applied snapshot conserves and covers: the counts in its receipt account
  // for every row gained and lost, every listed environment has a hold, what it
  // may not touch it leaves alone, and its cursor is strictly newer.
  lemma SnapshotConservesAndCovers(t: Tables, target: Target, c: Command, now: int)
    requires c.Reconcile? && AppliesSnapshot(t, target, c, now)
    ensures var o := ReconcileTx(t, target, c, now);
      var h := o.tables.holds;
      var gained, lost := AdoptedKeys(t.holds, c.rows), ReleasedKeys(t.holds, target, c.observedAt, c.rows);
      && o.reply == Reply(false, SnapshotReceipt(|gained|, |lost|))
      && |h| == |t.holds| + |gained| - |lost|
      && gained !! lost
      && EnvKeys(c.rows) <= h.Keys
      && (forall e | e in t.holds && (t.holds[e].materializedAt.None? || t.holds[e].target != Some(target)) ::
            e in h && h[e] == t.holds[e])
      && (target in t.snapshots ==> t.snapshots[target].observedAt < c.observedAt)
      && (forall u :: u in o.tables.snapshots <==> u == target || u in t.snapshots)
      && (forall u | u in o.tables.snapshots && u != target :: o.tables.snapshots[u] == t.snapshots[u])
      && o.tables.snapshots[target].observedAt == c.observedAt
  {
    hide Valid, PayloadHash, SnapshotDigest, AdoptedRevocationId;
    AppliedSnapshotTables(t, target, c, now);
    AdoptThenRelease(t.holds, c.rows, target, now, c.observedAt);
    AdoptThenReleaseCounts(t.holds, c.rows, target, now, c.observedAt);
    var h := ReconcileTx(t, target, c, now).tables.holds;
    assert forall e | e in t.holds && e !in ReleasedKeys(t.holds, target, c.observedAt, c.rows) :: e in h.Keys;
  }

  // Row by row: what is listed is held; a hold goes exactly if it is the target's, was
  // materialised by the time of the snapshot and is not listed; the others stay as they
  // are, and what is new is listed.
  lemma SnapshotReleases(t: Tables, target: Target, c: Command, now: int)
    requires c.Reconcile? && AppliesSnapshot(t, target, c, now)
    ensures var h := ReconcileTx(t, target, c, now).tables.holds;
      && (forall row | row in c.rows :: row.envKey in h)
      && (forall e | e in t.holds ::
            e !in h <==>
              && t.holds[e].target == Some(target) && t.holds[e].materializedAt.Some?
              && t.holds[e].materializedAt.value <= c.observedAt * 1000
              && forall row | row in c.rows :: row.envKey != e)
      && (forall e | e in h && e in t.holds :: h[e] == t.holds[e])
      && (forall e | e in h && e !in t.holds :: exists row | row in c.rows :: row.envKey == e)
  {
    hide Valid, PayloadHash, SnapshotDigest, AdoptedRevocationId, ReconcileTx, AppliesSnapshot, AdoptedHold, PrimaryKey;
    AppliedSnapshotTables(t, target, c, now);
    AppliedSnapshotHolds(t, target, c, now);
    var h := ReconcileTx(t, target, c, now).tables.holds;
    assert forall e :: e in h <==> e in h.Keys;
    assert forall row | row in c.rows :: row.envKey in EnvKeys(c.rows);
  }

  // An adopted hold carries its record: materialised from the start, claimed by nobody.
  lemma AdoptedCarryTheirRow(t: Tables, target: Target, c: Command, now: int, row: SnapshotRow)
    requires c.Reconcile? && AppliesSnapshot(t, target, c, now)
    requires row in c.rows && row.envKey !in t.holds
    ensures var h := ReconcileTx(t, target, c, now).tables.holds;
      && row.envKey in h
      && h[row.envKey] == Hold(AdoptedRevocationId(row.envKey, row.offboardId), row.offboardId, None, row.reason, None,
                               false, Some(now), 1, None, Some(target), row.requestedAt * 1000)
  {
    hide PayloadHash, SnapshotDigest, AdoptedRevocationId, ReconcileTx, ApplySnapshot, AdoptMissing, PrimaryKey,
         ValidRow, ValidId, ValidTimestamp;
    AppliedSnapshotHolds(t, target, c, now);
    assert row.envKey in AdoptedKeys(t.holds, c.rows);
    SameEnvKeySameRow(c.rows, row, RowOf(c.rows, row.envKey));
  }

  // A reconcile that did not apply a snapshot leaves holds and cursors alone.
  lemma OtherReconcilesAreInert(t: Tables, target: Target, c: Command, now: int)
    requires c.Reconcile? && !AppliesSnapshot(t, target, c, now)
    ensures var t' := After(t, ReconcileTx(t, target, c, now));
      t'.holds == t.holds && t'.snapshots == t.snapshots && t'.issued == t.issued
  {
    hide Valid, PayloadHash, SnapshotDigest, AdoptedRevocationId;
  }

  // ---------- Consistency ----------

  lemma ReconcileKeepsConsistency(t: Tables, target: Target, c: Command, now: int)
    requires c.Reconcile? && Consistent(t)
    ensures Consistent(After(t, ReconcileTx(t, target, c, now)))
  {
    hide Valid, PayloadHash, SnapshotDigest, AdoptedRevocationId, IssuedRevocationId;
    if AppliesSnapshot(t, target, c, now) {
      AppliedSnapshotTables(t, target, c, now);
      AdoptThenRelease(t.holds, c.rows, target, now, c.observedAt);
      forall e | e in AdoptedKeys(t.holds, c.rows)
        ensures Drawn(AdoptedHold(RowOf(c.rows, e), target, now).revocationId, t.issued)
      {
        AdoptedIdIsDrawn(e, RowOf(c.rows, e).offboardId, t.issued);
      }
    } else {
      OtherReconcilesAreInert(t, target, c, now);
    }
  }

  lemma EnqueueKeepsConsistency(t: Tables, a: Admission, target: Target, now: int)
    requires Consistent(t) && Enqueue(t, a, target, now).Some?
    ensures Consistent(Enqueue(t, a, target, now).value)
  {
    hide IssuedRevocationId, IssuedOffboardId;
    NextIdIsDrawn(t.issued);
    assert Drawn(IssuedRevocationId(t.issued), t.issued + 1);
  }

  // What a claim and a receipt may do to the holds.

  predicate ClaimEffect(before: map<string, Hold>, after: map<string, Hold>, target: Target, c: Command, now: int)
    requires c.Claim?
  {
    && after.Keys == before.Keys
    && forall e | e in before ::
         || after[e] == before[e]
         || (Due(before[e], target, now) && after[e] == ClaimedHold(before[e], c, now))
  }

  lemma ClaimShape(t: Tables, target: Target, c: Command, now: int, locked: set<string>)
    requires c.Claim?
    ensures var t' := After(t, ClaimTx(t, target, c, now, locked));
      && ClaimEffect(t.holds, t'.holds, target, c, now)
      && t'.snapshots == t.snapshots && t'.issued == t.issued
  {
    hide Valid, PayloadHash, ClaimToken;
    var picked := Members(Picks(t.holds, DueKeys(t.holds, target, now, locked), c.limit));
    assert ClaimEffect(t.holds, ClaimAll(t.holds, picked, c, now), target, c, now);
  }

  // A receipt that passes the compare-and-swap on its row.
  ghost predicate RecordApplies(t: Tables, target: Target, c: Command)
    requires c.Record?
  {
    var row := FindRow(t.holds, c.revocationId, target);
    && Valid(c)
    && ReadCommand(t, target, c).Missing?
    && row.Some?
    && Current(t.holds[row.value], c)
    && (c.result.Materialized? ==>
          t.holds[row.value].offboardId == c.result.offboardId && c.result.materializedAt <= MAX_DATE_MS)
  }

  lemma RecordShape(t: Tables, target: Target, c: Command)
    requires c.Record?
    ensures var t' := After(t, RecordTx(t, target, c));
      && t'.snapshots == t.snapshots && t'.issued == t.issued
      && (!RecordApplies(t, target, c) ==> t'.holds == t.holds)
      && (RecordApplies(t, target, c) ==>
            var e := FindRow(t.holds, c.revocationId, target).value;
            t'.holds == t.holds[e := RecordedHold(t.holds[e], c)])
  {
    hide Valid, PayloadHash;
  }

  lemma SameIdsKeepConsistency(t: Tables, t': Tables)
    requires Consistent(t) && t'.issued == t.issued && t'.holds.Keys <= t.holds.Keys
    requires forall e | e in t'.holds ::
               t'.holds[e].revocationId == t.holds[e].revocationId && t'.holds[e].revision >= t.holds[e].revision
    ensures Consistent(t')
  {
  }

  lemma StepKeepsConsistency(t: Tables, ev: Event)
    requires Consistent(t)
    ensures Consistent(Step(t, ev))
  {
    hide Valid, PayloadHash, SnapshotDigest, AdoptedRevocationId, IssuedRevocationId;
    match ev
    case Delivered(target, c, now, locked) =>
      match c {
        case Reconcile(_, _, _, _) => ReconcileKeepsConsistency(t, target, c, now);
        case Claim(_, _, _, _, _) =>
          ClaimShape(t, target, c, now, locked);
          SameIdsKeepConsistency(t, Step(t, ev));
        case Record(_, _, _, _, _) =>
          RecordShape(t, target, c);
          SameIdsKeepConsistency(t, Step(t, ev));
      }
    case Admitted(a, target, now) =>
      if Enqueue(t, a, target, now).Some? { EnqueueKeepsConsistency(t, a, target, now); }
    case MaterializedDirectly(_, _, _) =>
  }

  lemma {:induction false} RunKeepsConsistency(t: Tables, evs: seq<Event>)
    requires Consistent(t)
    ensures Consistent(Run(t, evs))
    decreases |evs|
  {
    hide Step, Consistent;
    if evs != [] {
      StepKeepsConsistency(t, evs[0]);
      RunKeepsConsistency(Step(t, evs[0]), evs[1..]);
    }
  }
}
