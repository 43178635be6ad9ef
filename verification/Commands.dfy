// The three commands of the offboard admission ledger: their validation, their
// JSON form and the hash that tells one delivery of a command from another.

module Commands {
  import opened Text
  import opened CanonicalJson

  datatype Target = Dev | Ol

  datatype Reason = EnvironmentUnbind | CustomerTerminated | AdminRevoked

  datatype SnapshotRow = SnapshotRow(offboardId: string, envKey: string, reason: Reason, requestedAt: int)

  datatype Materialization =
    | Materialized(offboardId: string, materializedAt: int)
    | BindingMissing

  datatype Command =
    | Reconcile(commandId: string, complete: bool, observedAt: int, rows: seq<SnapshotRow>)
    | Claim(commandId: string, workerId: string, limit: int, now: int, leaseMs: int)
    | Record(commandId: string, revocationId: string, claimToken: string, expectedRevision: int,
             result: Materialization)

  datatype Capability = ReconcileSnapshot | ClaimMaterializations | RecordReceipt

  function CapabilityOf(c: Command): Capability {
    match c
    case Reconcile(_, _, _, _) => ReconcileSnapshot
    case Claim(_, _, _, _, _) => ClaimMaterializations
    case Record(_, _, _, _, _) => RecordReceipt
  }

  // ---------- Validation ----------

  const MAX_SAFE_INTEGER: int := 9_007_199_254_740_991

  // The end of the year 9999. Later times are safe integers too, but `toISOString` gives
  // them a signed year, which the database does not read as a timestamp, or throws.
  const MAX_DATE_MS: int := 253_402_300_799_999

  // U+0000 is text to `trim` and JSON, and no text to the database.
  predicate HasNul(s: string) {
    '\0' in s
  }

  predicate ValidId(s: string) {
    !Blank(s) && Utf16Length(s) <= 200
  }

  predicate ValidTimestamp(ms: int) {
    0 <= ms <= MAX_SAFE_INTEGER
  }

  predicate ValidRow(row: SnapshotRow) {
    !Blank(row.offboardId) && !Blank(row.envKey) && ValidTimestamp(row.requestedAt)
  }

  predicate DistinctEnvKeys(rows: seq<SnapshotRow>) {
    forall i, j | 0 <= i < j < |rows| :: rows[i].envKey != rows[j].envKey
  }

  predicate Valid(c: Command) {
    && ValidId(c.commandId)
    && match c
       case Reconcile(_, complete, observedAt, rows) =>
         && complete && ValidTimestamp(observedAt)
         && (forall row | row in rows :: ValidRow(row))
         && DistinctEnvKeys(rows)
       case Claim(_, workerId, limit, now, leaseMs) =>
         ValidId(workerId) && 1 <= limit <= 200 && 0 < leaseMs && ValidTimestamp(now)
       case Record(_, revocationId, claimToken, expectedRevision, result) =>
         && !Blank(revocationId) && !Blank(claimToken) && 1 <= expectedRevision
         && match result
            case Materialized(offboardId, at) => !Blank(offboardId) && ValidTimestamp(at)
            case BindingMissing => true
  }

  function EnvKeys(rows: seq<SnapshotRow>): set<string> {
    set row | row in rows :: row.envKey
  }

  lemma EnvKeysCons(rows: seq<SnapshotRow>)
    requires rows != []
    ensures EnvKeys(rows) == {rows[0].envKey} + EnvKeys(rows[1..])
  {
    assert rows == [rows[0]] + rows[1..];
  }

  // ---------- JSON form and hashes ----------

  function ReasonJson(reason: Reason): Json {
    match reason
    case EnvironmentUnbind => String("environment_unbind")
    case CustomerTerminated => String("customer_terminated")
    case AdminRevoked => String("admin_revoked")
  }

  function IntJson(n: int): Json {
    var s := Numeral(n);
    assert s[0] in s;
    Json.Number(s)
  }

  function IndexOf(names: seq<string>, name: string): (i: nat)
    requires name in names
    ensures i < |names| && names[i] == name
  {
    if names[0] == name then 0 else 1 + IndexOf(names[1..], name)
  }

  // An object literal: its member names and their values.
  function Fields(names: seq<string>, values: seq<Json>): map<string, Json>
    requires |names| == |values|
  {
    map name | name in names :: values[IndexOf(names, name)]
  }

  predicate Distinct(names: seq<string>) {
    forall i, j | 0 <= i < j < |names| :: names[i] != names[j]
  }

  lemma FieldsAt(names: seq<string>, values: seq<Json>, i: nat)
    requires |names| == |values| && i < |names| && Distinct(names)
    ensures names[i] in Fields(names, values) && Fields(names, values)[names[i]] == values[i]
  {
    assert IndexOf(names, names[i]) == i;
  }

  lemma FieldNames(names: seq<string>, values: seq<Json>)
    requires |names| == |values|
    ensures Fields(names, values).Keys == Members(names)
  {
  }

  lemma FieldsInjective(names: seq<string>, a: seq<Json>, b: seq<Json>)
    requires |names| == |a| == |b| && Distinct(names)
    requires Fields(names, a) == Fields(names, b)
    ensures a == b
  {
    forall i | 0 <= i < |names| ensures a[i] == b[i] {
      FieldsAt(names, a, i);
      FieldsAt(names, b, i);
    }
  }

  // The member names of each object, in the order their values are listed.

  function RowName(i: nat): string
    requires i < 4
  {
    if i == 0 then "envKey"
    else if i == 1 then "offboardId"
    else if i == 2 then "reason"
    else "requestedAt"
  }

  function RowNames(): seq<string> { seq(4, i requires 0 <= i < 4 => RowName(i)) }

  function MaterializedName(i: nat): string
    requires i < 3
  {
    if i == 0 then "kind"
    else if i == 1 then "offboardId"
    else "materializedAt"
  }

  function MaterializedNames(): seq<string> { seq(3, i requires 0 <= i < 3 => MaterializedName(i)) }

  function ReconcileName(i: nat): string
    requires i < 4
  {
    if i == 0 then "commandId"
    else if i == 1 then "complete"
    else if i == 2 then "observedAt"
    else "rows"
  }

  function ReconcileNames(): seq<string> { seq(4, i requires 0 <= i < 4 => ReconcileName(i)) }

  function ClaimName(i: nat): string
    requires i < 5
  {
    if i == 0 then "commandId"
    else if i == 1 then "workerId"
    else if i == 2 then "limit"
    else if i == 3 then "now"
    else "leaseMs"
  }

  function ClaimNames(): seq<string> { seq(5, i requires 0 <= i < 5 => ClaimName(i)) }

  function RecordName(i: nat): string
    requires i < 5
  {
    if i == 0 then "commandId"
    else if i == 1 then "revocationId"
    else if i == 2 then "claimToken"
    else if i == 3 then "expectedRevision"
    else "result"
  }

  function RecordNames(): seq<string> { seq(5, i requires 0 <= i < 5 => RecordName(i)) }

  lemma NamesDistinct()
    ensures Distinct(RowNames()) && Distinct(MaterializedNames())
    ensures Distinct(ReconcileNames()) && Distinct(ClaimNames()) && Distinct(RecordNames())
  {
    forall i, j | 0 <= i < j < 4 ensures RowNames()[i] != RowNames()[j] {
      assert RowNames()[i][2] != RowNames()[j][2];
    }
    assert forall i, j | 0 <= i < j < 3 :: |MaterializedNames()[i]| != |MaterializedNames()[j]|;
    assert forall i, j | 0 <= i < j < 4 :: |ReconcileNames()[i]| != |ReconcileNames()[j]|;
    assert forall i, j | 0 <= i < j < 5 :: |ClaimNames()[i]| != |ClaimNames()[j]|;
    assert forall i, j | 0 <= i < j < 5 :: |RecordNames()[i]| != |RecordNames()[j]|;
  }

  function RowValues(row: SnapshotRow): seq<Json> {
    [String(row.envKey), String(row.offboardId), ReasonJson(row.reason), IntJson(row.requestedAt)]
  }

  function RowJson(row: SnapshotRow): Json {
    Object(Fields(RowNames(), RowValues(row)))
  }

  function RowsJson(rows: seq<SnapshotRow>): (r: seq<Json>)
    ensures |r| == |rows| && forall i | 0 <= i < |rows| :: r[i] == RowJson(rows[i])
  {
    if rows == [] then [] else [RowJson(rows[0])] + RowsJson(rows[1..])
  }

  function ResultJson(result: Materialization): Json {
    match result
    case Materialized(offboardId, at) =>
      Object(Fields(MaterializedNames(), [String("materialized"), String(offboardId), IntJson(at)]))
    case BindingMissing =>
      Object(Fields(["kind"], [String("binding_missing")]))
  }

  function Names(c: Command): seq<string> {
    match c
    case Reconcile(_, _, _, _) => ReconcileNames()
    case Claim(_, _, _, _, _) => ClaimNames()
    case Record(_, _, _, _, _) => RecordNames()
  }

  function Values(c: Command): (r: seq<Json>)
    ensures |r| == |Names(c)|
  {
    match c
    case Reconcile(commandId, complete, observedAt, rows) =>
      [String(commandId), Bool(complete), IntJson(observedAt), Array(RowsJson(rows))]
    case Claim(commandId, workerId, limit, now, leaseMs) =>
      [String(commandId), String(workerId), IntJson(limit), IntJson(now), IntJson(leaseMs)]
    case Record(commandId, revocationId, claimToken, expectedRevision, result) =>
      [String(commandId), String(revocationId), String(claimToken), IntJson(expectedRevision),
       ResultJson(result)]
  }

  function CommandJson(c: Command): Json {
    Object(Fields(Names(c), Values(c)))
  }

  function PayloadHash(c: Command): string {
    Canonical(CommandJson(c))
  }

  lemma IntJsonInjective(m: int, n: int)
    requires IntJson(m) == IntJson(n)
    ensures m == n
  {
    NumeralInjective(m, n);
  }

  lemma ReasonJsonInjective(a: Reason, b: Reason)
    requires ReasonJson(a) == ReasonJson(b)
    ensures a == b
  {
    assert ReasonJson(EnvironmentUnbind).text[0] == 'e';
    assert ReasonJson(CustomerTerminated).text[0] == 'c';
    assert ReasonJson(AdminRevoked).text[0] == 'a';
  }

  lemma RowJsonInjective(a: SnapshotRow, b: SnapshotRow)
    requires RowJson(a) == RowJson(b)
    ensures a == b
  {
    NamesDistinct();
    var x, y := RowValues(a), RowValues(b);
    FieldsInjective(RowNames(), x, y);
    assert x[0] == y[0] && x[1] == y[1] && x[2] == y[2] && x[3] == y[3];
    ReasonJsonInjective(a.reason, b.reason);
    IntJsonInjective(a.requestedAt, b.requestedAt);
  }

  lemma RowsJsonInjective(a: seq<SnapshotRow>, b: seq<SnapshotRow>)
    requires RowsJson(a) == RowsJson(b)
    ensures a == b
  {
    forall i | 0 <= i < |a| ensures a[i] == b[i] { RowJsonInjective(a[i], b[i]); }
  }

  lemma KindShows(r: Materialization)
    ensures r.Materialized? <==> ResultJson(r).Object? && MaterializedName(1) in ResultJson(r).members
  {
    assert |MaterializedName(1)| == 10;
    if r.Materialized? { assert MaterializedNames()[1] == MaterializedName(1); }
  }

  lemma ResultJsonInjective(a: Materialization, b: Materialization)
    requires ResultJson(a) == ResultJson(b)
    ensures a == b
  {
    NamesDistinct();
    KindShows(a);
    KindShows(b);
    if a.Materialized? && b.Materialized? {
      var x := [String("materialized"), String(a.offboardId), IntJson(a.materializedAt)];
      var y := [String("materialized"), String(b.offboardId), IntJson(b.materializedAt)];
      FieldsInjective(MaterializedNames(), x, y);
      assert x[1] == y[1] && x[2] == y[2];
      IntJsonInjective(a.materializedAt, b.materializedAt);
    }
  }

  // Every capability has a member name of a length no other uses.
  function OwnName(c: Command): (i: nat)
    ensures i < |Names(c)|
  {
    if c.Reconcile? then 3 else if c.Claim? then 2 else 1
  }

  lemma OwnNameIsOwn(a: Command, b: Command)
    requires Names(a)[OwnName(a)] in Names(b)
    ensures CapabilityOf(a) == CapabilityOf(b)
  {
    var name := Names(a)[OwnName(a)];
    assert |name| == if a.Reconcile? then 4 else if a.Claim? then 5 else 12;
    assert b.Reconcile? ==> forall n | n in Names(b) :: |n| !in {5, 12};
    assert b.Claim? ==> forall n | n in Names(b) :: |n| !in {4, 12};
    assert b.Record? ==> forall n | n in Names(b) :: |n| !in {4, 5};
  }

  lemma CapabilityShows(a: Command, b: Command)
    requires CommandJson(a) == CommandJson(b)
    ensures CapabilityOf(a) == CapabilityOf(b)
  {
    FieldNames(Names(a), Values(a));
    FieldNames(Names(b), Values(b));
    assert Names(a)[OwnName(a)] in Members(Names(a));
    OwnNameIsOwn(a, b);
  }

  lemma CommandJsonInjective(a: Command, b: Command)
    requires CommandJson(a) == CommandJson(b)
    ensures a == b
  {
    CapabilityShows(a, b);
    NamesDistinct();
    var x, y := Values(a), Values(b);
    FieldsInjective(Names(a), x, y);
    assert x[0] == y[0] && x[1] == y[1] && x[2] == y[2] && x[3] == y[3];
    match a
    case Reconcile(_, _, observedAt, rows) =>
      IntJsonInjective(observedAt, b.observedAt);
      RowsJsonInjective(rows, b.rows);
    case Claim(_, _, limit, now, leaseMs) =>
      assert x[4] == y[4];
      IntJsonInjective(limit, b.limit);
      IntJsonInjective(now, b.now);
      IntJsonInjective(leaseMs, b.leaseMs);
    case Record(_, _, _, revision, result) =>
      assert x[4] == y[4];
      IntJsonInjective(revision, b.expectedRevision);
      ResultJsonInjective(result, b.result);
  }

  // An equal hash means the same command, whatever its capability.
  lemma PayloadHashFaithful(a: Command, b: Command)
    ensures PayloadHash(a) == PayloadHash(b) <==> a == b
  {
    CanonicalInjective(CommandJson(a), CommandJson(b));
    if PayloadHash(a) == PayloadHash(b) { CommandJsonInjective(a, b); }
  }

  // `snapshotDigest`: rows sorted by environment key, then hashed.

  function RowOf(rows: seq<SnapshotRow>, envKey: string): (row: SnapshotRow)
    requires envKey in EnvKeys(rows)
    ensures row in rows && row.envKey == envKey
  {
    if rows[0].envKey == envKey then rows[0] else RowOf(rows[1..], envKey)
  }

  function Pick(rows: seq<SnapshotRow>, keys: seq<string>): (r: seq<SnapshotRow>)
    requires Members(keys) <= EnvKeys(rows)
    ensures |r| == |keys|
    ensures forall i | 0 <= i < |r| :: r[i] in rows && r[i].envKey == keys[i]
  {
    if keys == [] then []
    else
      assert keys[0] in Members(keys) && Members(keys[1..]) <= Members(keys);
      [RowOf(rows, keys[0])] + Pick(rows, keys[1..])
  }

  function SortRows(rows: seq<SnapshotRow>): seq<SnapshotRow> {
    Pick(rows, Sorted(EnvKeys(rows)))
  }

  function SnapshotDigest(rows: seq<SnapshotRow>): string {
    Canonical(Array(RowsJson(SortRows(rows))))
  }

  function RowSet(rows: seq<SnapshotRow>): set<SnapshotRow> {
    set row | row in rows
  }

  lemma SameEnvKeySameRow(rows: seq<SnapshotRow>, a: SnapshotRow, b: SnapshotRow)
    requires DistinctEnvKeys(rows) && a in rows && b in rows && a.envKey == b.envKey
    ensures a == b
  {
  }

  lemma SortRowsKeepsRows(rows: seq<SnapshotRow>)
    requires DistinctEnvKeys(rows)
    ensures RowSet(SortRows(rows)) == RowSet(rows)
  {
    var keys := Sorted(EnvKeys(rows));
    var r := SortRows(rows);
    forall row | row in rows ensures row in r {
      assert row.envKey in Members(keys);
      var i :| 0 <= i < |keys| && keys[i] == row.envKey;
      SameEnvKeySameRow(rows, row, r[i]);
    }
  }

  lemma SameRowsSameSort(a: seq<SnapshotRow>, b: seq<SnapshotRow>)
    requires DistinctEnvKeys(a) && RowSet(a) == RowSet(b)
    ensures SortRows(a) == SortRows(b)
  {
    assert forall row :: row in a <==> row in RowSet(a);
    assert forall row :: row in b <==> row in RowSet(b);
    assert EnvKeys(a) == EnvKeys(b);
    var ra, rb := SortRows(a), SortRows(b);
    forall i | 0 <= i < |ra| ensures ra[i] == rb[i] {
      SameEnvKeySameRow(a, ra[i], rb[i]);
    }
  }

  // The digest forgets exactly the order of the rows.
  lemma DigestIsRowSet(a: seq<SnapshotRow>, b: seq<SnapshotRow>)
    requires DistinctEnvKeys(a) && DistinctEnvKeys(b)
    ensures SnapshotDigest(a) == SnapshotDigest(b) <==> RowSet(a) == RowSet(b)
  {
    var ra, rb := SortRows(a), SortRows(b);
    if SnapshotDigest(a) == SnapshotDigest(b) {
      CanonicalInjective(Array(RowsJson(ra)), Array(RowsJson(rb)));
      RowsJsonInjective(ra, rb);
      SortRowsKeepsRows(a);
      SortRowsKeepsRows(b);
    }
    if RowSet(a) == RowSet(b) {
      SameRowsSameSort(a, b);
    }
  }
}
