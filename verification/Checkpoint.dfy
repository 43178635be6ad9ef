// The consumer checkpoint table: one row per target and stream, overwritten only by
// a snapshot that is newer, or the same one seen again.

module Checkpoint {
  import opened Wrappers
  import opened Commands
  import opened Numbers

  datatype ReadyState = Uninitialized | Ready | StaleState | Invalid | Recovering

  // The streams this service consumes (table CHECK).
  datatype ConsumedStream =
    | SessionConfig | EdgePresence | PublishInFlight | CaptchaAvailability | ConfigMirrorHealth

  // The data columns of a row; `digest` is the part after "sha256:".
  datatype Row = Row(
    cursor: Option<int>,
    digest: Option<string>,
    asOf: Option<int>,
    observedAt: Option<int>,
    freshUntil: Option<int>,
    appliedAt: Option<int>,
    state: ReadyState,
    lastError: Option<string>)

  predicate HexDigit(c: char) { '0' <= c <= '9' || 'a' <= c <= 'f' }

  predicate Digest(s: string) {
    |s| == 64 && forall c | c in s :: HexDigit(c)
  }

  predicate AllNull(r: Row) {
    && r.cursor.None? && r.digest.None? && r.asOf.None? && r.observedAt.None? && r.freshUntil.None? && r.appliedAt.None?
    && (r.state.Uninitialized? || r.state.Invalid? || r.state.Recovering?)
  }

  predicate AllSet(r: Row) {
    r.cursor.Some? && r.digest.Some? && r.asOf.Some? && r.observedAt.Some? && r.freshUntil.Some? && r.appliedAt.Some?
  }

  // The table's CHECK constraints, tested on every proposed row.
  predicate Checks(r: Row) {
    && (r.cursor.Some? ==> r.cursor.value >= 0)
    && (r.digest.Some? ==> Digest(r.digest.value))
    && (AllNull(r) || AllSet(r))
    && (r.asOf.Some? ==> r.asOf.value >= 0)
    && (r.observedAt.Some? ==> r.observedAt.value >= 0)
    && (r.freshUntil.Some? && r.asOf.Some? ==> r.freshUntil.value >= r.asOf.value)
    && (r.appliedAt.Some? ==> r.appliedAt.value >= 0)
  }

  // The same snapshot as the stored one: seen again later, or the very same sighting.
  predicate Renews(next: Row, cur: Row)
    requires AllSet(next) && AllSet(cur)
  {
    && next.digest == cur.digest
    && ((next.asOf.value > cur.asOf.value && next.observedAt.value >= cur.observedAt.value
         && next.appliedAt == cur.appliedAt)
        || (next.asOf == cur.asOf && next.observedAt == cur.observedAt && next.freshUntil == cur.freshUntil
            && next.appliedAt == cur.appliedAt))
  }

  // The WHERE of the DO UPDATE.
  predicate Overwrites(next: Row, cur: Row)
    requires Checks(next) && Checks(cur)
  {
    || cur.cursor.None?
    || (next.cursor.Some?
        && (next.cursor.value > cur.cursor.value || (next.cursor == cur.cursor && Renews(next, cur))))
  }

  type Key = (Target, ConsumedStream)

  datatype Stored = Accepted(row: Row) | Declined(current: Row) | Failed

  predicate ValidTable(rows: map<Key, Row>) {
    forall k | k in rows :: Checks(rows[k])
  }

  // The row a key holds after a checkpoint was offered for it.
  function Upserted(cur: Option<Row>, next: Row): Option<Row>
    requires cur.Some? ==> Checks(cur.value)
  {
    if !Checks(next) then cur
    else if cur.None? || Overwrites(next, cur.value) then Some(next)
    else cur
  }

  function Lookup(rows: map<Key, Row>, key: Key): Option<Row> {
    if key in rows then Some(rows[key]) else None
  }

  class CheckpointTable {
    var rows: map<Key, Row>

    constructor ()
      ensures ValidTable(rows) && rows == map[]
    {
      rows := map[];
    }

    // `store`: the upsert, and on refusal a read of the row that stood in the way.
    method Store(key: Key, checkpoint: Row) returns (stored: Stored)
      requires ValidTable(rows)
      modifies this
      ensures ValidTable(rows)
      ensures Lookup(rows, key) == Upserted(Lookup(old(rows), key), checkpoint)
      ensures forall k | k != key :: Lookup(rows, k) == Lookup(old(rows), k)
      ensures stored.Failed? <==> !Checks(checkpoint)
      ensures stored.Accepted? ==> key in rows && rows[key] == checkpoint == stored.row
      ensures !stored.Accepted? ==> rows == old(rows)
      ensures stored.Declined? ==> key in rows && rows[key] == stored.current && !Overwrites(checkpoint, rows[key])
    {
      if !Checks(checkpoint) {
        return Failed;
      }
      if key !in rows || Overwrites(checkpoint, rows[key]) {
        rows := rows[key := checkpoint];
        return Accepted(rows[key]);
      }
      return Declined(rows[key]);
    }
  }

  // ---------- Any order of deliveries ----------

  function StoreAll(cur: Option<Row>, offered: seq<Row>): (r: Option<Row>)
    requires cur.Some? ==> Checks(cur.value)
    ensures r.Some? ==> Checks(r.value)
    decreases |offered|
  {
    if offered == [] then cur else StoreAll(Upserted(cur, offered[0]), offered[1..])
  }

  function CursorAt(r: Option<Row>): int {
    if r.Some? && r.value.cursor.Some? then r.value.cursor.value else -1
  }

  // From one row to a later one: a cursor that is set stays set and does not fall; at
  // one cursor the digest and the time of application stay, and the source time and
  // the sighting do not go back.
  predicate Advanced(a: Option<Row>, b: Option<Row>)
    requires (a.Some? ==> Checks(a.value)) && (b.Some? ==> Checks(b.value))
  {
    && CursorAt(a) <= CursorAt(b)
    && (a.Some? ==> b.Some?)
    && (CursorAt(a) == CursorAt(b) >= 0 ==>
          && a.value.digest == b.value.digest
          && a.value.appliedAt == b.value.appliedAt
          && a.value.asOf.value <= b.value.asOf.value
          && a.value.observedAt.value <= b.value.observedAt.value)
  }

  lemma {:induction false} CheckpointsAdvance(cur: Option<Row>, offered: seq<Row>)
    requires cur.Some? ==> Checks(cur.value)
    ensures Advanced(cur, StoreAll(cur, offered))
    decreases |offered|
  {
    hide Digest;
    if offered != [] { CheckpointsAdvance(Upserted(cur, offered[0]), offered[1..]); }
  }

  // The largest cursor among the rows that pass the checks, -1 for none.
  function MaxCursor(offered: seq<Row>): int {
    if offered == [] then -1
    else
      var rest := MaxCursor(offered[1..]);
      if Checks(offered[0]) && CursorAt(Some(offered[0])) > rest then CursorAt(Some(offered[0])) else rest
  }

  // Whatever the order, the final cursor is the largest one delivered, and its digest
  // is one that came with it.
  lemma {:induction false} FinalCursorIsMax(cur: Option<Row>, offered: seq<Row>)
    requires cur.Some? ==> Checks(cur.value)
    ensures CursorAt(StoreAll(cur, offered)) == Max(CursorAt(cur), MaxCursor(offered))
    ensures var r := StoreAll(cur, offered);
      r == cur || (r.Some? && r.value in offered)
    decreases |offered|
  {
    hide Digest;
    if offered != [] { FinalCursorIsMax(Upserted(cur, offered[0]), offered[1..]); }
  }

  // With one payload per cursor, the final cursor and digest depend only on what was
  // delivered, not on the order or the number of times.
  predicate OneDigestPerCursor(offered: set<Row>) {
    forall a, b | a in offered && b in offered && a.cursor.Some? && a.cursor == b.cursor :: a.digest == b.digest
  }

  lemma {:induction false} MaxCursorBounds(offered: seq<Row>)
    ensures MaxCursor(offered) >= -1
    ensures forall r | r in offered && Checks(r) :: CursorAt(Some(r)) <= MaxCursor(offered)
    ensures MaxCursor(offered) >= 0 ==> exists r :: r in offered && Checks(r) && CursorAt(Some(r)) == MaxCursor(offered)
  {
    hide Digest;
    if offered != [] {
      MaxCursorBounds(offered[1..]);
      assert offered == [offered[0]] + offered[1..];
      if CursorAt(Some(offered[0])) == MaxCursor(offered) >= 0 { assert offered[0] in offered; }
    }
  }

  lemma OrderDoesNotMatter(a: seq<Row>, b: seq<Row>, all: set<Row>)
    requires (forall r :: r in a <==> r in all) && (forall r :: r in b <==> r in all)
    requires OneDigestPerCursor(all)
    ensures CursorAt(StoreAll(None, a)) == CursorAt(StoreAll(None, b))
    ensures CursorAt(StoreAll(None, a)) >= 0 ==> StoreAll(None, a).value.digest == StoreAll(None, b).value.digest
  {
    hide Checks, StoreAll;
    MaxCursorBounds(a);
    MaxCursorBounds(b);
    FinalCursorIsMax(None, a);
    FinalCursorIsMax(None, b);
  }

  // ---------- Which checkpoints are stored ----------

  lemma DigestIff(d: string)
    ensures Digest(d) <==> |d| == 64 && forall c | c in d :: c in "0123456789abcdef"
  {
    forall c: char ensures HexDigit(c) <==> c in "0123456789abcdef" {
      HexIff(c);
    }
  }

  lemma HexIff(c: char)
    ensures HexDigit(c) <==> c in "0123456789abcdef"
  {
    var hex := "0123456789abcdef";
    if '0' <= c <= '9' { assert hex[c as int - '0' as int] == c; }
    if 'a' <= c <= 'f' { assert hex[c as int - 'a' as int + 10] == c; }
  }

  // The first one of a key: if all data columns are null or all are set, with a digest,
  // no negative number and no expiry before the source time.
  lemma FirstStored(next: Row)
    ensures Upserted(None, next) == Some(next) <==>
      && (|| (&& next.cursor.None? && next.digest.None? && next.asOf.None? && next.observedAt.None?
              && next.freshUntil.None? && next.appliedAt.None? && next.state !in {Ready, StaleState})
          || (&& next.cursor.Some? && next.digest.Some? && next.asOf.Some? && next.observedAt.Some?
              && next.freshUntil.Some? && next.appliedAt.Some?
              && |next.digest.value| == 64 && (forall c | c in next.digest.value :: c in "0123456789abcdef")
              && next.cursor.value >= 0 && next.observedAt.value >= 0
              && next.appliedAt.value >= 0 && next.freshUntil.value >= next.asOf.value >= 0))
  {
    if next.digest.Some? { DigestIff(next.digest.value); }
    hide Digest;
  }

  // Another one replaces it exactly with a larger cursor, or with the same cursor, digest
  // and time of application seen at a later source time and not sighted earlier, or as
  // the very same sighting, in which case only state and error change.
  lemma StoredNext(cur: Row, next: Row)
    requires Checks(cur)
    ensures Upserted(Some(cur), next) == Some(next) <==>
      || next == cur
      || (&& Upserted(None, next) == Some(next)
          && (|| cur.cursor.None?
              || (next.cursor.Some? && next.cursor.value > cur.cursor.value)
              || (&& next.cursor == cur.cursor && next.digest == cur.digest && next.appliedAt == cur.appliedAt
                  && (|| (next.asOf.value > cur.asOf.value && next.observedAt.value >= cur.observedAt.value)
                      || next == cur.(state := next.state, lastError := next.lastError)))))
    ensures Upserted(Some(cur), next) in {Some(cur), Some(next)}
  {
    hide Digest;
  }

  // Rows of one snapshot, sighted in the order of their source times.
  predicate Sightings(rows: set<Row>) {
    && (forall r | r in rows :: Checks(r) && r.cursor.Some?)
    && (forall q, r | q in rows && r in rows ::
          q.cursor == r.cursor && q.digest == r.digest && q.appliedAt == r.appliedAt)
    && (forall q, r | q in rows && r in rows && q.asOf.value < r.asOf.value :: q.observedAt.value <= r.observedAt.value)
  }

  // In whatever order the sightings of one snapshot arrive, the row that stays is one
  // with the latest source time.
  lemma {:induction false} LatestSightingStays(cur: Row, offered: seq<Row>, all: set<Row>)
    requires Sightings(all) && cur in all && forall r | r in offered :: r in all
    ensures var r := StoreAll(Some(cur), offered);
      && r.Some? && r.value in all && r.value.asOf.value >= cur.asOf.value
      && forall q | q in offered :: q.asOf.value <= r.value.asOf.value
    decreases |offered|
  {
    hide Digest;
    if offered != [] {
      var next := Upserted(Some(cur), offered[0]).value;
      assert offered[0] in offered && forall r | r in offered[1..] :: r in offered;
      assert next.asOf.value >= offered[0].asOf.value && next.asOf.value >= cur.asOf.value;
      LatestSightingStays(next, offered[1..], all);
      assert offered == [offered[0]] + offered[1..];
    }
  }
}
