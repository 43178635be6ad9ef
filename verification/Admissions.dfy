// The admission tables and what each ledger transaction does to them, as
// functions from the tables before to the tables after.

module Admissions {
  import opened Numbers
  import opened Wrappers
  import opened Text
  import opened Commands

  // Database times are in microseconds; wire times in milliseconds.
  const LEASE_MICROS: int := 30_000_000

  function Micros(ms: int): int { ms * 1000 }
  function Millis(micros: int): int { micros / 1000 }

  // The claim columns are all null or all set (table CHECK).
  datatype Lease = Lease(token: string, claimedBy: string, expiresAt: int)

  // A row of client_env_revocation_holds, keyed by its unique env_key.
  datatype Hold = Hold(
    revocationId: string,
    offboardId: string,
    userId: Option<string>,
    reason: Reason,
    revokedBy: Option<string>,
    unboundTerminalOk: bool,
    materializedAt: Option<int>,
    revision: int,
    lease: Option<Lease>,
    target: Option<Target>,
    requestedAt: int)

  // A claimed hold as it is handed to a worker; times in milliseconds.
  datatype Candidate = Candidate(
    revocationId: string,
    offboardId: string,
    envKey: string,
    userId: Option<string>,
    reason: Reason,
    actor: Option<string>,
    unboundTerminalAllowed: bool,
    requestedAt: int,
    claimToken: string,
    revision: int,
    claimExpiresAt: int)

  datatype RecordOutcome = Applied | Stale | Collision

  datatype Receipt =
    | SnapshotReceipt(adopted: nat, released: nat)
    | ClaimReceipt(candidates: seq<Candidate>)
    | ResultReceipt(outcome: RecordOutcome, revision: int)

  datatype StoredCommand = StoredCommand(capability: Capability, hash: string, receipt: Receipt)

  type SnapshotOutcome = r: Receipt | r.SnapshotReceipt? witness SnapshotReceipt(0, 0)

  datatype SnapshotState = SnapshotState(observedAt: int, digest: string, receipt: SnapshotOutcome)

  // client_env_revocation_holds, client_env_admission_command_receipts and
  // client_env_admission_snapshot_state. `issued` numbers the random ids drawn so far.
  datatype Tables = Tables(
    holds: map<string, Hold>,
    commands: map<(Target, string), StoredCommand>,
    snapshots: map<Target, SnapshotState>,
    issued: nat)

  datatype LedgerError =
    | InvalidRequest
    | CommandCollision
    | StaleSnapshot
    | SnapshotCollision
    | TargetUnassigned
    | DateOutOfRange
    | TextRejected
    | UniqueViolation

  // A reply is the stored receipt, marked when it answers a repeated delivery.
  datatype Reply = Reply(duplicate: bool, receipt: Receipt)

  datatype Outcome =
    | Committed(tables: Tables, reply: Reply)
    | RolledBack(error: LedgerError)

  function After(before: Tables, o: Outcome): Tables {
    if o.Committed? then o.tables else before
  }

  // Identifiers. Two random draws differ; md5 is injective on its input, and the
  // first letter keeps the kinds of input apart.
  function IssuedRevocationId(n: nat): string { "i" + Decimal(n) }
  function IssuedOffboardId(n: nat): string { "o" + Decimal(n) }
  function AdoptedRevocationId(envKey: string, offboardId: string): string {
    "a" + (envKey + ":" + offboardId)
  }
  function ClaimToken(commandId: string, revocationId: string, revision: int): string {
    "c" + (commandId + ":" + revocationId + ":" + Numeral(revision))
  }

  lemma IssuedIdsDiffer(m: nat, n: nat)
    ensures IssuedRevocationId(m) == IssuedRevocationId(n) <==> m == n
    ensures IssuedOffboardId(m) == IssuedOffboardId(n) <==> m == n
  {
    if IssuedRevocationId(m) == IssuedRevocationId(n) || IssuedOffboardId(m) == IssuedOffboardId(n) {
      assert IssuedRevocationId(m)[1..] == Decimal(m) == IssuedOffboardId(m)[1..];
      assert IssuedRevocationId(n)[1..] == Decimal(n) == IssuedOffboardId(n)[1..];
      DecimalInjective(m, n);
    }
  }

  lemma IssuedIsNotAdopted(n: nat, envKey: string, offboardId: string)
    ensures IssuedRevocationId(n) != AdoptedRevocationId(envKey, offboardId)
  {
    assert IssuedRevocationId(n)[0] == 'i' && AdoptedRevocationId(envKey, offboardId)[0] == 'a';
  }

  // revocation_id is the primary key.
  ghost predicate PrimaryKey(holds: map<string, Hold>) {
    forall e, f | e in holds && f in holds && holds[e].revocationId == holds[f].revocationId :: e == f
  }

  predicate AllAssigned(holds: map<string, Hold>) {
    forall e | e in holds :: holds[e].target.Some?
  }

  // ---------- Command receipts ----------

  datatype Lookup = Missing | Found(receipt: Receipt) | Mismatch | Unreadable

  function ReadCommand(t: Tables, target: Target, c: Command): Lookup {
    if HasNul(c.commandId) then Unreadable
    else if (target, c.commandId) !in t.commands then Missing
    else
      var stored := t.commands[(target, c.commandId)];
      if stored.capability != CapabilityOf(c) || stored.hash != PayloadHash(c) then Mismatch
      else Found(stored.receipt)
  }

  function WriteCommand(t: Tables, target: Target, c: Command, receipt: Receipt): Tables {
    t.(commands := t.commands[(target, c.commandId) := StoredCommand(CapabilityOf(c), PayloadHash(c), receipt)])
  }

  // A stale or colliding receipt is replayed as it was; the others as duplicates.
  function Replay(receipt: Receipt): Reply {
    Reply(!receipt.ResultReceipt? || receipt.outcome == Applied, receipt)
  }

  // ---------- reconcileActiveOffboardSnapshot ----------

  function AdoptedHold(row: SnapshotRow, target: Target, now: int): Hold {
    Hold(AdoptedRevocationId(row.envKey, row.offboardId), row.offboardId, None, row.reason, None, false,
         Some(now), 1, None, Some(target), Micros(row.requestedAt))
  }

  predicate IdTaken(holds: map<string, Hold>, revocationId: string) {
    exists e | e in holds :: holds[e].revocationId == revocationId
  }

  // INSERT ... ON CONFLICT (env_key) DO NOTHING; a clash on the primary key fails the statement.
  function AdoptMissing(holds: map<string, Hold>, rows: seq<SnapshotRow>, target: Target, now: int)
    : Option<map<string, Hold>>
    decreases |rows|
  {
    if rows == [] then Some(holds)
    else if rows[0].envKey in holds then AdoptMissing(holds, rows[1..], target, now)
    else
      var hold := AdoptedHold(rows[0], target, now);
      if IdTaken(holds, hold.revocationId) then None
      else AdoptMissing(holds[rows[0].envKey := hold], rows[1..], target, now)
  }

  predicate Releasable(h: Hold, envKey: string, target: Target, observedAt: int, keys: set<string>) {
    && h.materializedAt.Some?
    && h.target == Some(target)
    && h.materializedAt.value <= Micros(observedAt)
    && envKey !in keys
  }

  function Release(holds: map<string, Hold>, target: Target, observedAt: int, keys: set<string>): map<string, Hold> {
    map e | e in holds && !Releasable(holds[e], e, target, observedAt, keys) :: holds[e]
  }

  // The effect of a snapshot that passed every check.
  function ApplySnapshot(t: Tables, target: Target, c: Command, now: int): Outcome
    requires c.Reconcile?
  {
    if exists row | row in c.rows :: row.requestedAt > MAX_DATE_MS then RolledBack(DateOutOfRange)
    else if exists row | row in c.rows :: HasNul(row.envKey) || HasNul(row.offboardId) then RolledBack(TextRejected)
    else match AdoptMissing(t.holds, c.rows, target, now)
    case None => RolledBack(UniqueViolation)
    case Some(adopted) =>
      if c.observedAt > MAX_DATE_MS then RolledBack(DateOutOfRange)
      else
        var left := Release(adopted, target, c.observedAt, EnvKeys(c.rows));
        var receipt := SnapshotReceipt(Count(t.holds, adopted), Count(left, adopted));
        var applied := t.(
          holds := left,
          snapshots := t.snapshots[target := SnapshotState(c.observedAt, SnapshotDigest(c.rows), receipt)]);
        Committed(WriteCommand(applied, target, c, receipt), Reply(false, receipt))
  }

  // How many rows the larger table has beyond the smaller one.
  function Count(fewer: map<string, Hold>, more: map<string, Hold>): nat {
    if |fewer| <= |more| then |more| - |fewer| else 0
  }

  // No snapshot as new as this one has been applied for the target.
  predicate Advances(t: Tables, target: Target, observedAt: int) {
    target in t.snapshots ==> t.snapshots[target].observedAt < observedAt
  }

  function ReconcileTx(t: Tables, target: Target, c: Command, now: int): Outcome
    requires c.Reconcile?
  {
    if !Valid(c) then RolledBack(InvalidRequest)
    else if !AllAssigned(t.holds) then RolledBack(TargetUnassigned)
    else match ReadCommand(t, target, c)
    case Unreadable => RolledBack(TextRejected)
    case Mismatch => RolledBack(CommandCollision)
    case Found(receipt) => Committed(t, Replay(receipt))
    case Missing =>
      if Advances(t, target, c.observedAt) then ApplySnapshot(t, target, c, now)
      else
        var state := t.snapshots[target];
        if c.observedAt < state.observedAt then RolledBack(StaleSnapshot)
        else if state.digest != SnapshotDigest(c.rows) then RolledBack(SnapshotCollision)
        else Committed(WriteCommand(t, target, c, state.receipt), Reply(true, state.receipt))
  }

  // ---------- claimPendingMaterializations ----------

  predicate Due(h: Hold, target: Target, now: int) {
    && h.materializedAt.None?
    && h.target == Some(target)
    && (h.lease.None? || h.lease.value.expiresAt <= now)
  }

  // Due rows no other transaction has locked.
  function DueKeys(holds: map<string, Hold>, target: Target, now: int, locked: set<string>): set<string> {
    set e | e in holds && e !in locked && Due(holds[e], target, now)
  }

  // ORDER BY requested_at, env_key.
  predicate ClaimedBefore(holds: map<string, Hold>, e: string, f: string)
    requires e in holds && f in holds
  {
    || holds[e].requestedAt < holds[f].requestedAt
    || (holds[e].requestedAt == holds[f].requestedAt && Less(e, f))
  }

  predicate IsFirst(holds: map<string, Hold>, due: set<string>, e: string)
    requires due <= holds.Keys
  {
    e in due && forall f | f in due :: f == e || ClaimedBefore(holds, e, f)
  }

  lemma ClaimedBeforeTransitive(holds: map<string, Hold>, e: string, f: string, g: string)
    requires e in holds && f in holds && g in holds
    requires ClaimedBefore(holds, e, f) && ClaimedBefore(holds, f, g)
    ensures ClaimedBefore(holds, e, g)
  {
    if Less(e, f) && Less(f, g) { LessTransitive(e, f, g); }
  }

  lemma {:induction false} FirstExists(holds: map<string, Hold>, due: set<string>)
    requires due <= holds.Keys && due != {}
    ensures exists e :: IsFirst(holds, due, e)
    decreases |due|
  {
    var x :| x in due;
    var rest := due - {x};
    if rest == {} {
      assert due == {x};
      assert IsFirst(holds, due, x);
    } else {
      FirstExists(holds, rest);
      var k :| IsFirst(holds, rest, k);
      LessTotal(x, k);
      if ClaimedBefore(holds, x, k) {
        forall f | f in due ensures f == x || ClaimedBefore(holds, x, f) {
          if f != x && f != k { ClaimedBeforeTransitive(holds, x, k, f); }
        }
        assert IsFirst(holds, due, x);
      } else {
        assert IsFirst(holds, due, k);
      }
    }
  }

  lemma FirstUnique(holds: map<string, Hold>, due: set<string>, e: string, f: string)
    requires due <= holds.Keys && IsFirst(holds, due, e) && IsFirst(holds, due, f)
    ensures e == f
  {
    if e != f {
      LessTransitive(e, f, e);
      LessIrreflexive(e);
    }
  }

  function First(holds: map<string, Hold>, due: set<string>): (e: string)
    requires due <= holds.Keys && due != {}
    ensures IsFirst(holds, due, e)
  {
    FirstExists(holds, due);
    assert forall e, f | IsFirst(holds, due, e) && IsFirst(holds, due, f) :: e == f by {
      forall e, f | IsFirst(holds, due, e) && IsFirst(holds, due, f) ensures e == f {
        FirstUnique(holds, due, e, f);
      }
    }
    var e :| IsFirst(holds, due, e);
    e
  }

  // LIMIT: the first `limit` due rows.
  function Picks(holds: map<string, Hold>, due: set<string>, limit: int): (ks: seq<string>)
    requires due <= holds.Keys
    ensures Members(ks) <= due
    decreases |due|
  {
    if limit <= 0 || due == {} then []
    else
      var e := First(holds, due);
      var rest := Picks(holds, due - {e}, limit - 1);
      MembersCons(e, rest);
      [e] + rest
  }

  predicate AreFirst(holds: map<string, Hold>, due: set<string>, ks: seq<string>)
    requires due <= holds.Keys && Members(ks) <= due
  {
    assert forall k | k in ks :: k in Members(ks);
    && (forall i, j | 0 <= i < j < |ks| :: ClaimedBefore(holds, ks[i], ks[j]))
    && (forall i, f | 0 <= i < |ks| && f in due - Members(ks) :: ClaimedBefore(holds, ks[i], f))
  }

  lemma FirstThenRest(holds: map<string, Hold>, due: set<string>, e: string, rest: seq<string>)
    requires due <= holds.Keys && IsFirst(holds, due, e)
    requires Members(rest) <= due - {e} && AreFirst(holds, due - {e}, rest)
    ensures Members([e] + rest) <= due && AreFirst(holds, due, [e] + rest)
  {
    hide ClaimedBefore;
    MembersCons(e, rest);
    assert forall k | k in rest :: k in Members(rest);
    var ks := [e] + rest;
    forall i | 0 < i < |ks| ensures ks[i] == rest[i - 1] && ks[i] in due && ks[i] != e {
      assert rest[i - 1] in Members(rest);
    }
    assert due - Members(ks) == due - {e} - Members(rest);
  }

  // They come in that order, as many as there are up to the limit, and every due row
  // left out comes after all of them.
  lemma {:induction false} PicksAreFirst(holds: map<string, Hold>, due: set<string>, limit: int)
    requires due <= holds.Keys
    ensures |Picks(holds, due, limit)| == Min(Max(limit, 0), |due|)
    ensures AreFirst(holds, due, Picks(holds, due, limit))
    decreases |due|
  {
    hide IsFirst, AreFirst, Members;
    if limit > 0 && due != {} {
      var e := First(holds, due);
      FirstIsDue(holds, due, e);
      assert |due - {e}| < |due|;
      PicksAreFirst(holds, due - {e}, limit - 1);
      FirstThenRest(holds, due, e, Picks(holds, due - {e}, limit - 1));
    } else {
      NoneAreFirst(holds, due);
    }
  }

  lemma FirstIsDue(holds: map<string, Hold>, due: set<string>, e: string)
    requires due <= holds.Keys && IsFirst(holds, due, e)
    ensures e in due
  {
  }

  lemma NoneAreFirst(holds: map<string, Hold>, due: set<string>)
    requires due <= holds.Keys
    ensures AreFirst(holds, due, [])
  {
  }

  function ClaimedHold(h: Hold, c: Command, now: int): Hold
    requires c.Claim?
  {
    h.(revision := h.revision + 1,
       lease := Some(Lease(ClaimToken(c.commandId, h.revocationId, h.revision + 1), c.workerId, now + LEASE_MICROS)))
  }

  function ClaimAll(holds: map<string, Hold>, picked: set<string>, c: Command, now: int): map<string, Hold>
    requires c.Claim?
  {
    map e | e in holds :: if e in picked then ClaimedHold(holds[e], c, now) else holds[e]
  }

  function CandidateOf(h: Hold, envKey: string): Candidate
    requires h.lease.Some?
  {
    Candidate(h.revocationId, h.offboardId, envKey, h.userId, h.reason, h.revokedBy, h.unboundTerminalOk,
              Millis(h.requestedAt), h.lease.value.token, h.revision, Millis(h.lease.value.expiresAt))
  }

  function Candidates(holds: map<string, Hold>, keys: seq<string>): (r: seq<Candidate>)
    requires forall k | k in keys :: k in holds && holds[k].lease.Some?
    ensures |r| == |keys| && forall i | 0 <= i < |r| :: r[i] == CandidateOf(holds[keys[i]], keys[i])
  {
    if keys == [] then [] else [CandidateOf(holds[keys[0]], keys[0])] + Candidates(holds, keys[1..])
  }

  function ApplyClaim(t: Tables, target: Target, c: Command, now: int, locked: set<string>): Outcome
    requires c.Claim?
  {
    var keys := Picks(t.holds, DueKeys(t.holds, target, now, locked), c.limit);
    assert forall k | k in keys :: k in Members(keys);
    var claimed := ClaimAll(t.holds, Members(keys), c, now);
    var receipt := ClaimReceipt(Candidates(claimed, keys));
    Committed(WriteCommand(t.(holds := claimed), target, c, receipt), Reply(false, receipt))
  }

  function ClaimTx(t: Tables, target: Target, c: Command, now: int, locked: set<string>): Outcome
    requires c.Claim?
  {
    if !Valid(c) then RolledBack(InvalidRequest)
    else if !AllAssigned(t.holds) then RolledBack(TargetUnassigned)
    else match ReadCommand(t, target, c)
    case Unreadable => RolledBack(TextRejected)
    case Mismatch => RolledBack(CommandCollision)
    case Found(receipt) => Committed(t, Replay(receipt))
    case Missing =>
      if HasNul(c.workerId) then RolledBack(TextRejected) else ApplyClaim(t, target, c, now, locked)
  }

  // ---------- recordMaterializationReceipt ----------

  predicate IsRow(holds: map<string, Hold>, e: string, revocationId: string, target: Target) {
    e in holds && holds[e].revocationId == revocationId && holds[e].target == Some(target)
  }

  ghost function FindRow(holds: map<string, Hold>, revocationId: string, target: Target): (r: Option<string>)
    ensures r.Some? ==> IsRow(holds, r.value, revocationId, target)
    ensures r.None? ==> forall e | e in holds :: !IsRow(holds, e, revocationId, target)
  {
    if exists e :: IsRow(holds, e, revocationId, target) then
      var e :| IsRow(holds, e, revocationId, target);
      Some(e)
    else None
  }

  // The compare-and-swap guard: pending, and both token and revision are current.
  predicate Current(h: Hold, c: Command)
    requires c.Record?
  {
    && h.materializedAt.None?
    && h.lease.Some? && h.lease.value.token == c.claimToken
    && h.revision == c.expectedRevision
  }

  function RecordedHold(h: Hold, c: Command): Hold
    requires c.Record?
  {
    h.(materializedAt := if c.result.Materialized? then Some(Micros(c.result.materializedAt)) else h.materializedAt,
       lease := None,
       revision := h.revision + 1)
  }

  ghost function ApplyRecord(t: Tables, target: Target, c: Command): Outcome
    requires c.Record?
  {
    var row := FindRow(t.holds, c.revocationId, target);
    if row.None? || !Current(t.holds[row.value], c) then
      var receipt := ResultReceipt(Stale, if row.None? then 0 else t.holds[row.value].revision);
      Committed(WriteCommand(t, target, c, receipt), Reply(false, receipt))
    else
      var h := t.holds[row.value];
      if c.result.Materialized? && h.offboardId != c.result.offboardId then
        var receipt := ResultReceipt(Collision, h.revision);
        Committed(WriteCommand(t, target, c, receipt), Reply(false, receipt))
      else if c.result.Materialized? && c.result.materializedAt > MAX_DATE_MS then
        RolledBack(DateOutOfRange)
      else
        var receipt := ResultReceipt(Applied, h.revision + 1);
        Committed(WriteCommand(t.(holds := t.holds[row.value := RecordedHold(h, c)]), target, c, receipt),
                  Reply(false, receipt))
  }

  ghost function RecordTx(t: Tables, target: Target, c: Command): Outcome
    requires c.Record?
  {
    if !Valid(c) then RolledBack(InvalidRequest)
    else match ReadCommand(t, target, c)
    case Unreadable => RolledBack(TextRejected)
    case Mismatch => RolledBack(CommandCollision)
    case Found(receipt) => Committed(t, Replay(receipt))
    case Missing => ApplyRecord(t, target, c)
  }

  // A delivery of any of the three commands.
  ghost function Deliver(t: Tables, target: Target, c: Command, now: int, locked: set<string>): Outcome {
    match c
    case Reconcile(_, _, _, _) => ReconcileTx(t, target, c, now)
    case Claim(_, _, _, _, _) => ClaimTx(t, target, c, now, locked)
    case Record(_, _, _, _, _) => RecordTx(t, target, c)
  }

  // ---------- Admissions made by the client-user store ----------

  datatype Admission = Admission(
    envKey: string, userId: string, reason: Reason, actor: Option<string>, unboundTerminalOk: bool)

  function NewHold(t: Tables, a: Admission, target: Target, now: int): Hold {
    Hold(IssuedRevocationId(t.issued), IssuedOffboardId(t.issued), Some(a.userId), a.reason, a.actor,
         a.unboundTerminalOk, None, 1, None, Some(target), now)
  }

  // `enqueueAdmission`: a pending row, or the row this target already has for the
  // environment; another target's row is a conflict that fails the transaction.
  function Enqueue(t: Tables, a: Admission, target: Target, now: int): Option<Tables> {
    if a.envKey !in t.holds then
      Some(t.(holds := t.holds[a.envKey := NewHold(t, a, target, now)], issued := t.issued + 1))
    else if t.holds[a.envKey].target == Some(target) then Some(t)
    else None
  }

  // `materializeAdmission`, after the owner answered: stamped with this service's clock.
  function DirectlyMaterialized(h: Hold, offboardId: string, now: int): Hold {
    h.(offboardId := offboardId, materializedAt := Some(now))
  }

  function RecordDirectly(t: Tables, revocationId: string, offboardId: string, now: int): Tables {
    t.(holds := map e | e in t.holds ::
        if t.holds[e].revocationId == revocationId then DirectlyMaterialized(t.holds[e], offboardId, now)
        else t.holds[e])
  }

  // ---------- Everything that happens to the admission tables ----------

  datatype Event =
    | Delivered(target: Target, command: Command, now: int, locked: set<string>)
    | Admitted(admission: Admission, target: Target, now: int)
    | MaterializedDirectly(revocationId: string, offboardId: string, now: int)

  ghost function Step(t: Tables, ev: Event): Tables {
    match ev
    case Delivered(target, c, now, locked) => After(t, Deliver(t, target, c, now, locked))
    case Admitted(a, target, now) => Enqueue(t, a, target, now).UnwrapOr(t)
    case MaterializedDirectly(revocationId, offboardId, now) => RecordDirectly(t, revocationId, offboardId, now)
  }

  ghost function Run(t: Tables, evs: seq<Event>): Tables
    decreases |evs|
  {
    if evs == [] then t else Run(Step(t, evs[0]), evs[1..])
  }
}
