// When a snapshot is applied, what is answered otherwise, and its cursor over runs.

module SnapshotRuns {
  import opened Wrappers
  import opened Text
  import opened Commands
  import opened Admissions
  import opened AdmissionLaws

  // ---------- When a snapshot is applied ----------

  function IdOf(row: SnapshotRow): string {
    AdoptedRevocationId(row.envKey, row.offboardId)
  }

  // The ids of the rows to adopt are new and all different.
  predicate IdsFree(holds: map<string, Hold>, rows: seq<SnapshotRow>) {
    && (forall i | 0 <= i < |rows| && rows[i].envKey !in holds :: !IdTaken(holds, IdOf(rows[i])))
    && (forall i, j | 0 <= i < j < |rows| && rows[i].envKey !in holds && rows[j].envKey !in holds ::
          IdOf(rows[i]) != IdOf(rows[j]))
  }

  lemma IdsFreeCons(holds: map<string, Hold>, rows: seq<SnapshotRow>)
    requires rows != [] && rows[0].envKey in holds
    ensures IdsFree(holds, rows) <==> IdsFree(holds, rows[1..])
  {
    hide IdTaken, IdOf;
    assert forall i | 0 < i < |rows| :: rows[i] == rows[1..][i - 1];
  }

  lemma IdsFreeAdopt(holds: map<string, Hold>, rows: seq<SnapshotRow>, h: Hold)
    requires rows != [] && rows[0].envKey !in holds && DistinctEnvKeys(rows)
    requires h.revocationId == IdOf(rows[0]) && !IdTaken(holds, IdOf(rows[0]))
    ensures IdsFree(holds, rows) <==> IdsFree(holds[rows[0].envKey := h], rows[1..])
  {
    hide IdTaken, IdOf;
    var next := holds[rows[0].envKey := h];
    assert forall i | 0 < i < |rows| ::
      rows[i] == rows[1..][i - 1] && (rows[i].envKey in next <==> rows[i].envKey in holds);
    forall id ensures IdTaken(next, id) <==> IdTaken(holds, id) || id == IdOf(rows[0]) {
      OneMoreId(holds, rows[0].envKey, h, id);
    }
    if IdsFree(next, rows[1..]) {
      forall i, j | 0 <= i < j < |rows| && rows[i].envKey !in holds && rows[j].envKey !in holds
        ensures IdOf(rows[i]) != IdOf(rows[j])
      {
        assert !IdTaken(next, IdOf(rows[1..][j - 1]));
      }
    }
  }

  lemma OneMoreId(holds: map<string, Hold>, e: string, h: Hold, id: string)
    requires e !in holds
    ensures IdTaken(holds[e := h], id) <==> IdTaken(holds, id) || id == h.revocationId
  {
    var next := holds[e := h];
    if IdTaken(holds, id) {
      var f :| f in holds && holds[f].revocationId == id;
      assert f in next && next[f].revocationId == id;
    }
    if id == h.revocationId { assert next[e].revocationId == id; }
  }

  // Adoption goes through exactly when no two ids clash.
  lemma {:induction false} AdoptionSucceeds(holds: map<string, Hold>, rows: seq<SnapshotRow>, target: Target, now: int)
    requires DistinctEnvKeys(rows)
    ensures AdoptMissing(holds, rows, target, now).Some? <==> IdsFree(holds, rows)
    decreases |rows|
  {
    hide IdTaken, AdoptedRevocationId, IdsFree;
    if rows == [] {
      NoIds(holds);
    } else if rows[0].envKey in holds {
      IdsFreeCons(holds, rows);
      AdoptionSucceeds(holds, rows[1..], target, now);
    } else {
      var h := AdoptedHold(rows[0], target, now);
      if IdTaken(holds, IdOf(rows[0])) {
        FirstIdClashes(holds, rows);
      } else {
        IdsFreeAdopt(holds, rows, h);
        AdoptionSucceeds(holds[rows[0].envKey := h], rows[1..], target, now);
      }
    }
  }

  lemma NoIds(holds: map<string, Hold>)
    ensures IdsFree(holds, [])
  {
  }

  lemma FirstIdClashes(holds: map<string, Hold>, rows: seq<SnapshotRow>)
    requires rows != [] && rows[0].envKey !in holds && IdTaken(holds, IdOf(rows[0]))
    ensures !IdsFree(holds, rows)
  {
    hide IdTaken, IdOf;
  }

  predicate DatesInRange(c: Command)
    requires c.Reconcile?
  {
    c.observedAt <= MAX_DATE_MS && forall row | row in c.rows :: row.requestedAt <= MAX_DATE_MS
  }

  predicate TextStorable(c: Command)
    requires c.Reconcile?
  {
    forall row | row in c.rows :: !HasNul(row.envKey) && !HasNul(row.offboardId)
  }

  // A valid, new and newer snapshot is applied exactly when the database takes its
  // dates and texts and the ids it derives do not clash.
  lemma AppliedIff(t: Tables, target: Target, c: Command, now: int)
    requires c.Reconcile? && Valid(c) && AllAssigned(t.holds)
    requires ReadCommand(t, target, c).Missing? && Advances(t, target, c.observedAt)
    ensures AppliesSnapshot(t, target, c, now) <==> DatesInRange(c) && TextStorable(c) && IdsFree(t.holds, c.rows)
  {
    hide PayloadHash, SnapshotDigest, IdsFree, ValidRow, ValidId;
    AdoptionSucceeds(t.holds, c.rows, target, now);
  }

  predicate InRange(c: Command)
    requires c.Reconcile?
  {
    && !Blank(c.commandId) && Utf16Length(c.commandId) <= 200
    && c.complete && 0 <= c.observedAt <= 9_007_199_254_740_991
    && (forall row | row in c.rows ::
          !Blank(row.offboardId) && !Blank(row.envKey) && 0 <= row.requestedAt <= 9_007_199_254_740_991)
    && (forall i, j | 0 <= i < j < |c.rows| :: c.rows[i].envKey != c.rows[j].envKey)
  }

  predicate NoLater(ms: int) {
    ms <= 253_402_300_799_999
  }

  // A new snapshot is applied exactly when it is complete, its parts are in range, its
  // environments are listed once, every hold has a target, no snapshot as new was applied
  // for this one, the database takes its dates and texts, and its ids are free. What
  // is refused is refused in this order.
  lemma SnapshotApplied(t: Tables, target: Target, c: Command, now: int)
    requires c.Reconcile? && (target, c.commandId) !in t.commands
    ensures var o := ReconcileTx(t, target, c, now);
      var targeted := forall e | e in t.holds :: t.holds[e].target.Some?;
      var newer := target in t.snapshots ==> t.snapshots[target].observedAt < c.observedAt;
      var dates := forall row | row in c.rows :: NoLater(row.requestedAt);
      var texts := forall row | row in c.rows :: '\0' !in row.offboardId && '\0' !in row.envKey;
      && ((o.Committed? && !o.reply.duplicate) <==>
            && InRange(c) && targeted && '\0' !in c.commandId && newer
            && dates && texts && IdsFree(t.holds, c.rows) && NoLater(c.observedAt))
      && (o.RolledBack? ==>
            o.error == if !InRange(c) then InvalidRequest
                       else if !targeted then TargetUnassigned
                       else if '\0' in c.commandId then TextRejected
                       else if !newer then
                         if c.observedAt < t.snapshots[target].observedAt then StaleSnapshot else SnapshotCollision
                       else if !dates then DateOutOfRange
                       else if !texts then TextRejected
                       else if !IdsFree(t.holds, c.rows) then UniqueViolation
                       else DateOutOfRange)
    ensures AppliesSnapshot(t, target, c, now) <==>
      ReconcileTx(t, target, c, now).Committed? && !ReconcileTx(t, target, c, now).reply.duplicate
  {
    hide PayloadHash, SnapshotDigest, IdsFree, Blank, AdoptMissing, Release, Count;
    if Valid(c) { AdoptionSucceeds(t.holds, c.rows, target, now); }
  }

  // Distinct rows can clash, since the id is derived from the text of key and offboard
  // run together: then one pair of rows keeps the whole snapshot from being applied.
  lemma IdsCanClash(target: Target, now: int)
    ensures var rows := [SnapshotRow("c", "a:b", AdminRevoked, 0), SnapshotRow("b:c", "a", AdminRevoked, 0)];
      && DistinctEnvKeys(rows) && rows[0].offboardId != rows[1].offboardId
      && AdoptMissing(map[], rows, target, now) == None
  {
    var rows := [SnapshotRow("c", "a:b", AdminRevoked, 0), SnapshotRow("b:c", "a", AdminRevoked, 0)];
    assert "a:b" + ":" + "c" == "a" + ":" + "b:c";
    assert IdOf(rows[0]) == IdOf(rows[1]);
    AdoptionSucceeds(map[], rows, target, now);
  }

  // ---------- What the other snapshots are answered ----------

  // Against the state an earlier snapshot left: an older one is stale; one of the same
  // moment gets the earlier receipt if it lists the same rows and is refused if not.
  lemma AgainstState(t: Tables, target: Target, prior: Command, c: Command, receipt: SnapshotOutcome, now: int)
    requires prior.Reconcile? && DistinctEnvKeys(prior.rows)
    requires c.Reconcile? && Valid(c) && AllAssigned(t.holds) && ReadCommand(t, target, c).Missing?
    requires target in t.snapshots
          && t.snapshots[target] == SnapshotState(prior.observedAt, SnapshotDigest(prior.rows), receipt)
    ensures var o := ReconcileTx(t, target, c, now);
      && (c.observedAt < prior.observedAt ==> o == RolledBack(StaleSnapshot))
      && (c.observedAt == prior.observedAt && RowSet(c.rows) == RowSet(prior.rows) ==>
            && o.Committed? && o.reply == Reply(true, receipt)
            && o.tables.holds == t.holds && o.tables.snapshots == t.snapshots)
      && (c.observedAt == prior.observedAt && RowSet(c.rows) != RowSet(prior.rows) ==>
            o == RolledBack(SnapshotCollision))
      && (c.observedAt > prior.observedAt ==>
            o.Committed? || o.error in {DateOutOfRange, TextRejected, UniqueViolation})
  {
    hide PayloadHash, SnapshotDigest, RowSet, ValidRow, ValidId, AdoptMissing, Release;
    DigestIsRowSet(c.rows, prior.rows);
  }

  // ---------- The cursor over runs ----------

  predicate CursorKept(t: Tables, t': Tables, target: Target) {
    target in t.snapshots ==>
      && target in t'.snapshots
      && (|| t'.snapshots[target] == t.snapshots[target]
          || t'.snapshots[target].observedAt > t.snapshots[target].observedAt)
  }

  lemma StepKeepsCursor(t: Tables, ev: Event, target: Target)
    ensures CursorKept(t, Step(t, ev), target)
  {
    hide Valid, PayloadHash, SnapshotDigest, ReconcileTx, ClaimTx, RecordTx, IssuedRevocationId, IssuedOffboardId,
         AdoptMissing;
    match ev
    case Delivered(to, c, now, locked) =>
      match c {
        case Reconcile(_, _, _, _) =>
          if AppliesSnapshot(t, to, c, now) {
            AppliedSnapshotTables(t, to, c, now);
          } else {
            OtherReconcilesAreInert(t, to, c, now);
          }
        case Claim(_, _, _, _, _) => ClaimShape(t, to, c, now, locked);
        case Record(_, _, _, _, _) => RecordShape(t, to, c);
      }
    case Admitted(_, _, _) =>
    case MaterializedDirectly(_, _, _) =>
  }

  // Over any run a target's cursor never goes back, and while it stays the digest and
  // the receipt stay.
  lemma {:induction false} RunKeepsCursor(t: Tables, evs: seq<Event>, target: Target)
    ensures CursorKept(t, Run(t, evs), target)
    decreases |evs|
  {
    hide Step;
    if evs != [] {
      StepKeepsCursor(t, evs[0], target);
      RunKeepsCursor(Step(t, evs[0]), evs[1..], target);
    }
  }

  // So a snapshot older than one already applied is refused whatever happened since.
  lemma OlderIsStaleForGood(t: Tables, target: Target, prior: Command, at: int, evs: seq<Event>, c: Command, now: int)
    requires prior.Reconcile? && AppliesSnapshot(t, target, prior, at)
    requires c.Reconcile? && Valid(c) && c.observedAt < prior.observedAt
    requires var s := Run(ReconcileTx(t, target, prior, at).tables, evs);
      AllAssigned(s.holds) && ReadCommand(s, target, c).Missing?
    ensures var s := Run(ReconcileTx(t, target, prior, at).tables, evs);
      ReconcileTx(s, target, c, now) == RolledBack(StaleSnapshot)
  {
    hide PayloadHash, SnapshotDigest, ValidRow, ValidId, AdoptMissing, Release, Run;
    AppliedSnapshotTables(t, target, prior, at);
    RunKeepsCursor(ReconcileTx(t, target, prior, at).tables, evs, target);
  }
}
