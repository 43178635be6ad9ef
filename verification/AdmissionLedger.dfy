// The ledger as it works on its tables: each method is one transaction, statement by
// statement, proved to do what the table functions say.

module AdmissionLedger {
  import opened Wrappers
  import opened Text
  import opened Commands
  import opened Admissions
  import opened AdmissionLaws

  datatype Result = Replied(reply: Reply) | Threw(error: LedgerError)

  function ResultOf(o: Outcome): Result {
    match o
    case Committed(_, reply) => Replied(reply)
    case RolledBack(error) => Threw(error)
  }

  // What the validation loop has established of the rows it has seen.
  ghost predicate RowsSeen(rows: seq<SnapshotRow>, n: nat, seen: set<string>)
    requires n <= |rows|
  {
    && (forall i | 0 <= i < n :: ValidRow(rows[i]))
    && (forall i, j | 0 <= i < j < n :: rows[i].envKey != rows[j].envKey)
    && seen == EnvKeys(rows[..n])
  }

  lemma RowSeen(rows: seq<SnapshotRow>, n: nat, seen: set<string>)
    requires n < |rows| && RowsSeen(rows, n, seen) && ValidRow(rows[n]) && rows[n].envKey !in seen
    ensures RowsSeen(rows, n + 1, seen + {rows[n].envKey})
  {
    hide ValidRow;
    assert rows[..n + 1] == rows[..n] + [rows[n]];
    forall i | 0 <= i < n ensures rows[i].envKey in seen { assert rows[..n][i] == rows[i]; }
  }

  lemma RepeatedRow(rows: seq<SnapshotRow>, n: nat, seen: set<string>)
    requires n < |rows| && RowsSeen(rows, n, seen) && rows[n].envKey in seen
    ensures !DistinctEnvKeys(rows)
  {
    hide ValidRow;
    var row :| row in rows[..n] && row.envKey == rows[n].envKey;
    var i :| 0 <= i < n && rows[..n][i] == row;
    assert rows[i].envKey == rows[n].envKey;
  }

  // The due rows taken so far, in order, and those still to take.
  lemma PickOne(holds: map<string, Hold>, due: set<string>, limit: int)
    requires due <= holds.Keys && due != {} && limit > 0
    ensures Picks(holds, due, limit) == [First(holds, due)] + Picks(holds, due - {First(holds, due)}, limit - 1)
  {
  }

  class Ledger {
    const target: Target
    var holds: map<string, Hold>
    var commands: map<(Target, string), StoredCommand>
    var snapshots: map<Target, SnapshotState>
    var issued: nat

    function Contents(): Tables
      reads this
    {
      Tables(holds, commands, snapshots, issued)
    }

    ghost predicate Valid()
      reads this
    {
      Consistent(Contents())
    }

    constructor (target: Target)
      ensures this.target == target && Contents() == Tables(map[], map[], map[], 0) && Valid()
    {
      this.target := target;
      holds, commands, snapshots, issued := map[], map[], map[], 0;
    }

    // ROLLBACK
    method Restore(t: Tables)
      modifies this
      ensures Contents() == t
    {
      holds, commands, snapshots, issued := t.holds, t.commands, t.snapshots, t.issued;
    }

    // The INSERT of the command's receipt.
    method WriteReceipt(c: Command, receipt: Receipt)
      modifies this`commands
      ensures Contents() == WriteCommand(old(Contents()), target, c, receipt)
    {
      commands := commands[(target, c.commandId) := StoredCommand(CapabilityOf(c), PayloadHash(c), receipt)];
    }

    method CheckRows(rows: seq<SnapshotRow>) returns (ok: bool, seenEnvKeys: set<string>)
      ensures ok <==> (forall row | row in rows :: ValidRow(row)) && DistinctEnvKeys(rows)
      ensures ok ==> seenEnvKeys == EnvKeys(rows)
    {
      hide ValidRow;
      seenEnvKeys := {};
      for n := 0 to |rows|
        invariant RowsSeen(rows, n, seenEnvKeys)
      {
        if !ValidRow(rows[n]) {
          return false, seenEnvKeys;
        }
        if rows[n].envKey in seenEnvKeys {
          RepeatedRow(rows, n, seenEnvKeys);
          return false, seenEnvKeys;
        }
        RowSeen(rows, n, seenEnvKeys);
        seenEnvKeys := seenEnvKeys + {rows[n].envKey};
      }
      assert rows[..|rows|] == rows;
      return true, seenEnvKeys;
    }

    // INSERT ... ON CONFLICT (env_key) DO NOTHING, row by row.
    method Adopt(rows: seq<SnapshotRow>, now: int) returns (ok: bool)
      modifies this`holds
      ensures AdoptMissing(old(holds), rows, target, now) == if ok then Some(holds) else None
    {
      hide AdoptedHold;
      for n := 0 to |rows|
        invariant AdoptMissing(holds, rows[n..], target, now) == AdoptMissing(old(holds), rows, target, now)
      {
        assert rows[n..][1..] == rows[n + 1..];
        if rows[n].envKey !in holds {
          var hold := AdoptedHold(rows[n], target, now);
          if IdTaken(holds, hold.revocationId) {
            return false;
          }
          holds := holds[rows[n].envKey := hold];
        }
      }
      return true;
    }

    method ReconcileActiveOffboardSnapshot(c: Command, now: int) returns (result: Result)
      requires Valid() && c.Reconcile?
      modifies this
      ensures Valid()
      ensures Contents() == After(old(Contents()), ReconcileTx(old(Contents()), target, c, now))
      ensures result == ResultOf(ReconcileTx(old(Contents()), target, c, now))
    {
      hide Consistent, PayloadHash, SnapshotDigest, ValidId, ValidTimestamp, ValidRow, AdoptMissing, Releasable,
           DistinctEnvKeys, EnvKeys, IdTaken;
      ghost var t := Contents();
      ReconcileKeepsConsistency(t, target, c, now);
      if !ValidId(c.commandId) || !c.complete || !ValidTimestamp(c.observedAt) {
        return Threw(InvalidRequest);
      }
      var rowsOk, seenEnvKeys := CheckRows(c.rows);
      if !rowsOk {
        return Threw(InvalidRequest);
      }
      if !AllAssigned(holds) {
        return Threw(TargetUnassigned);
      }
      match ReadCommand(Contents(), target, c) {
        case Unreadable => return Threw(TextRejected);
        case Mismatch => return Threw(CommandCollision);
        case Found(receipt) => return Replied(Replay(receipt));
        case Missing =>
      }
      if target in snapshots {
        var state := snapshots[target];
        if c.observedAt < state.observedAt {
          return Threw(StaleSnapshot);
        }
        if c.observedAt == state.observedAt {
          if state.digest != SnapshotDigest(c.rows) {
            return Threw(SnapshotCollision);
          }
          WriteReceipt(c, state.receipt);
          return Replied(Reply(true, state.receipt));
        }
      }
      result := ApplyRows(c, seenEnvKeys, now);
    }

    // The part of the transaction that changes holds and cursor.
    method ApplyRows(c: Command, seenEnvKeys: set<string>, now: int) returns (result: Result)
      requires c.Reconcile? && seenEnvKeys == EnvKeys(c.rows)
      modifies this
      ensures Contents() == After(old(Contents()), ApplySnapshot(old(Contents()), target, c, now))
      ensures result == ResultOf(ApplySnapshot(old(Contents()), target, c, now))
    {
      hide PayloadHash, SnapshotDigest, AdoptMissing, Releasable, EnvKeys, IdTaken;
      var before := Contents();
      if exists row | row in c.rows :: row.requestedAt > MAX_DATE_MS {
        return Threw(DateOutOfRange);
      }
      if exists row | row in c.rows :: HasNul(row.envKey) || HasNul(row.offboardId) {
        return Threw(TextRejected);
      }
      var adopted := Adopt(c.rows, now);
      if !adopted {
        Restore(before);
        return Threw(UniqueViolation);
      }
      var withAdopted := holds;
      if c.observedAt > MAX_DATE_MS {
        Restore(before);
        return Threw(DateOutOfRange);
      }
      holds := map e | e in holds && !Releasable(holds[e], e, target, c.observedAt, seenEnvKeys) :: holds[e];
      var receipt := SnapshotReceipt(Count(before.holds, withAdopted), Count(holds, withAdopted));
      snapshots := snapshots[target := SnapshotState(c.observedAt, SnapshotDigest(c.rows), receipt)];
      WriteReceipt(c, receipt);
      return Replied(Reply(false, receipt));
    }

    // ORDER BY requested_at, env_key FOR UPDATE SKIP LOCKED LIMIT
    method PickDue(limit: int, now: int, locked: set<string>) returns (keys: seq<string>)
      ensures keys == Picks(holds, DueKeys(holds, target, now, locked), limit)
    {
      hide First, DueKeys;
      var due := DueKeys(holds, target, now, locked);
      assert due <= holds.Keys by { DueAreHolds(holds, target, now, locked); }
      keys := [];
      while |keys| < limit && due != {}
        invariant due <= holds.Keys
        invariant keys + Picks(holds, due, limit - |keys|) == Picks(holds, DueKeys(holds, target, now, locked), limit)
        decreases |due|
      {
        var e := First(holds, due);
        PickOne(holds, due, limit - |keys|);
        assert keys + ([e] + Picks(holds, due - {e}, limit - |keys| - 1))
            == keys + [e] + Picks(holds, due - {e}, limit - |keys| - 1);
        due := due - {e};
        keys := keys + [e];
      }
      assert keys + [] == keys;
    }

    method ClaimPendingMaterializations(c: Command, now: int, locked: set<string>) returns (result: Result)
      requires Valid() && c.Claim?
      modifies this
      ensures Valid()
      ensures Contents() == After(old(Contents()), ClaimTx(old(Contents()), target, c, now, locked))
      ensures result == ResultOf(ClaimTx(old(Contents()), target, c, now, locked))
    {
      hide Consistent, PayloadHash, Commands.Valid, Picks, DueKeys, ClaimToken;
      ClaimKeepsConsistency(Contents(), target, c, now, locked);
      if !Commands.Valid(c) {
        return Threw(InvalidRequest);
      }
      if !AllAssigned(holds) {
        return Threw(TargetUnassigned);
      }
      match ReadCommand(Contents(), target, c) {
        case Unreadable => return Threw(TextRejected);
        case Mismatch => return Threw(CommandCollision);
        case Found(receipt) => return Replied(Replay(receipt));
        case Missing =>
      }
      if HasNul(c.workerId) {
        return Threw(TextRejected);
      }
      DueAreHolds(holds, target, now, locked);
      var keys := PickDue(c.limit, now, locked);
      holds := ClaimAll(holds, Members(keys), c, now);
      assert forall k | k in keys :: k in Members(keys);
      var receipt := ClaimReceipt(Candidates(holds, keys));
      WriteReceipt(c, receipt);
      return Replied(Reply(false, receipt));
    }

    method RecordMaterializationReceipt(c: Command) returns (result: Result)
      requires Valid() && c.Record?
      modifies this
      ensures Valid()
      ensures Contents() == After(old(Contents()), RecordTx(old(Contents()), target, c))
      ensures result == ResultOf(RecordTx(old(Contents()), target, c))
    {
      hide Drawn, PayloadHash, Commands.Valid;
      RecordKeepsConsistency(Contents(), target, c);
      if !Commands.Valid(c) {
        return Threw(InvalidRequest);
      }
      match ReadCommand(Contents(), target, c) {
        case Unreadable => return Threw(TextRejected);
        case Mismatch => return Threw(CommandCollision);
        case Found(receipt) => return Replied(Replay(receipt));
        case Missing =>
      }
      var receipt;
      if e :| e in holds && IsRow(holds, e, c.revocationId, target) {
        assert FindRow(holds, c.revocationId, target) == Some(e);
        var row := holds[e];
        if row.materializedAt.Some? || row.lease.None? || row.lease.value.token != c.claimToken
           || row.revision != c.expectedRevision {
          receipt := ResultReceipt(Stale, row.revision);
        } else if c.result.Materialized? && row.offboardId != c.result.offboardId {
          receipt := ResultReceipt(Collision, row.revision);
        } else {
          if c.result.Materialized? && c.result.materializedAt > MAX_DATE_MS {
            return Threw(DateOutOfRange);
          }
          holds := holds[e := RecordedHold(row, c)];
          receipt := ResultReceipt(Applied, row.revision + 1);
        }
      } else {
        assert FindRow(holds, c.revocationId, target).None?;
        receipt := ResultReceipt(Stale, 0);
      }
      WriteReceipt(c, receipt);
      return Replied(Reply(false, receipt));
    }
  }

  lemma DueAreHolds(holds: map<string, Hold>, target: Target, now: int, locked: set<string>)
    ensures DueKeys(holds, target, now, locked) <= holds.Keys
  {
  }

  lemma ClaimKeepsConsistency(t: Tables, target: Target, c: Command, now: int, locked: set<string>)
    requires c.Claim? && Consistent(t)
    ensures Consistent(After(t, ClaimTx(t, target, c, now, locked)))
  {
    StepKeepsConsistency(t, Delivered(target, c, now, locked));
  }

  lemma RecordKeepsConsistency(t: Tables, target: Target, c: Command)
    requires c.Record? && Consistent(t)
    ensures Consistent(After(t, RecordTx(t, target, c)))
  {
    StepKeepsConsistency(t, Delivered(target, c, 0, {}));
  }
}
