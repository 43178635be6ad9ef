// Snapshots of the configuration this service owns: a cursor and a payload read
// from one database state, or, for one stream, from two.

module SnapshotSource {
  import opened ConfigVersions

  // The version table and what each stream's query returns.
  datatype Database<!P> = Database(versions: Versions, content: Stream -> P)

  // A committed transaction of a config store: its bumps, then the contents it leaves.
  datatype Write<!P> = Write(bumps: seq<MirrorKey>, content: Stream -> P)

  // What a snapshot says of the owner's state.
  datatype Snapshot<P> = Snapshot(cursor: nat, payload: P)

  function BumpAll(versions: Versions, keys: seq<MirrorKey>): Versions
    decreases |keys|
  {
    if keys == [] then versions else BumpAll(Bumped(versions, keys[0]), keys[1..])
  }

  // `bumpInTx` refuses a key this service does not own, and the whole write with it.
  function Commit<P>(db: Database<P>, w: Write<P>): Database<P> {
    if exists key | key in w.bumps :: OwnerOf(key) != Api then db
    else Database(BumpAll(db.versions, w.bumps), w.content)
  }

  // A write that changes what a stream publishes bumps a counter of that stream.
  predicate BumpsWhatItChanges<P(==)>(db: Database<P>, w: Write<P>) {
    forall stream: Stream | w.content(stream) != db.content(stream) ::
      exists key | key in w.bumps :: key in KeysOf(stream)
  }

  // The state after the first i writes.
  function StateAt<P>(db: Database<P>, writes: seq<Write<P>>, i: nat): Database<P>
    requires i <= |writes|
    decreases i
  {
    if i == 0 then db else StateAt(Commit(db, writes[0]), writes[1..], i - 1)
  }

  predicate WellBumped<P(==)>(db: Database<P>, writes: seq<Write<P>>)
    decreases |writes|
  {
    writes == [] || (BumpsWhatItChanges(db, writes[0]) && WellBumped(Commit(db, writes[0]), writes[1..]))
  }

  // ---------- Reads ----------

  function CursorOf<P>(db: Database<P>, stream: Stream): nat {
    Cursor(db.versions, KeysOf(stream))
  }

  function PolicyCursor<P>(db: Database<P>): nat { CursorOf(db, OperationPolicyStream) }

  // Both in one repeatable-read transaction.
  function Load<P>(db: Database<P>, stream: Stream): Snapshot<P> {
    Snapshot(CursorOf(db, stream), db.content(stream))
  }

  // The operation policy: the cursor first, the payload from a later state.
  function LoadPolicy<P>(early: Database<P>, late: Database<P>): Snapshot<P> {
    Snapshot(CursorOf(early, OperationPolicyStream), late.content(OperationPolicyStream))
  }

  // ---------- One write ----------

  lemma {:induction false} BumpAllRaises(versions: Versions, bumps: seq<MirrorKey>, keys: seq<MirrorKey>)
    ensures NotBehind(versions, BumpAll(versions, bumps))
    ensures (exists key | key in bumps :: key in keys) ==>
              Cursor(versions, keys) < Cursor(BumpAll(versions, bumps), keys)
    decreases |bumps|
  {
    hide Cursor, Bumped;
    if bumps != [] {
      var next := Bumped(versions, bumps[0]);
      BumpRaisesCursor(versions, bumps[0], keys);
      BumpAllRaises(next, bumps[1..], keys);
      CursorFaithful(next, BumpAll(next, bumps[1..]), keys);
    }
  }

  // Counters never fall, and the cursor rises whenever the payload changes.
  lemma CommitRaises<P>(db: Database<P>, w: Write<P>, stream: Stream)
    requires BumpsWhatItChanges(db, w)
    ensures NotBehind(db.versions, Commit(db, w).versions)
    ensures Commit(db, w).content(stream) != db.content(stream) ==>
              CursorOf(db, stream) < CursorOf(Commit(db, w), stream)
  {
    hide Cursor, KeysOf;
    BumpAllRaises(db.versions, w.bumps, KeysOf(stream));
  }

  // ---------- Whole runs ----------

  lemma {:induction false} CursorsRise<P>(db: Database<P>, writes: seq<Write<P>>, stream: Stream, i: nat, j: nat)
    requires WellBumped(db, writes) && i <= j <= |writes|
    ensures NotBehind(StateAt(db, writes, i).versions, StateAt(db, writes, j).versions)
    ensures CursorOf(StateAt(db, writes, i), stream) <= CursorOf(StateAt(db, writes, j), stream)
    ensures StateAt(db, writes, i).content(stream) != StateAt(db, writes, j).content(stream) ==>
              CursorOf(StateAt(db, writes, i), stream) < CursorOf(StateAt(db, writes, j), stream)
    decreases j
  {
    hide Cursor, KeysOf, Commit, BumpsWhatItChanges;
    if i > 0 {
      CursorsRise(Commit(db, writes[0]), writes[1..], stream, i - 1, j - 1);
    } else if j > 0 {
      var next := Commit(db, writes[0]);
      CommitRaises(db, writes[0], stream);
      CursorsRise(next, writes[1..], stream, 0, j - 1);
      CursorFaithful(db.versions, next.versions, KeysOf(stream));
    }
  }

  // One payload per cursor: whenever and in whatever order two snapshots of a stream
  // are read, equal cursors come with equal payloads.
  lemma OnePayloadPerCursor<P>(db: Database<P>, writes: seq<Write<P>>, stream: Stream, i: nat, j: nat)
    requires WellBumped(db, writes) && i <= |writes| && j <= |writes|
    requires Load(StateAt(db, writes, i), stream).cursor == Load(StateAt(db, writes, j), stream).cursor
    ensures Load(StateAt(db, writes, i), stream) == Load(StateAt(db, writes, j), stream)
  {
    hide StateAt, WellBumped, CursorOf;
    CursorsRise(db, writes, stream, if i <= j then i else j, if i <= j then j else i);
  }

  // A payload that changed since shows as a larger cursor.
  lemma ChangeShows<P>(db: Database<P>, writes: seq<Write<P>>, stream: Stream, i: nat, j: nat)
    requires WellBumped(db, writes) && i <= j <= |writes|
    requires Load(StateAt(db, writes, i), stream).payload != Load(StateAt(db, writes, j), stream).payload
    ensures Load(StateAt(db, writes, i), stream).cursor < Load(StateAt(db, writes, j), stream).cursor
  {
    hide StateAt, WellBumped, CursorOf;
    CursorsRise(db, writes, stream, i, j);
  }

  // The policy's payload is never older than its cursor: as long as the owner's
  // cursor has not moved past the published one, the published payload is current.
  lemma PolicyIsNotStale<P>(db: Database<P>, writes: seq<Write<P>>, i: nat, j: nat, k: nat)
    requires WellBumped(db, writes) && i <= j <= k <= |writes|
    requires CursorOf(StateAt(db, writes, k), OperationPolicyStream)
          == LoadPolicy(StateAt(db, writes, i), StateAt(db, writes, j)).cursor
    ensures StateAt(db, writes, k).content(OperationPolicyStream)
         == LoadPolicy(StateAt(db, writes, i), StateAt(db, writes, j)).payload
  {
    hide StateAt, WellBumped, CursorOf;
    CursorsRise(db, writes, OperationPolicyStream, i, j);
    CursorsRise(db, writes, OperationPolicyStream, j, k);
  }

  // No bump of the policy's counter leaves a policy that was there at another count.
  ghost predicate NoPolicyReturns<P(!new)>(db: Database<P>, writes: seq<Write<P>>) {
    forall m: nat, n: nat | m <= |writes| && n <= |writes|
        && StateAt(db, writes, m).content(OperationPolicyStream)
           == StateAt(db, writes, n).content(OperationPolicyStream) ::
      PolicyCursor(StateAt(db, writes, m)) == PolicyCursor(StateAt(db, writes, n))
  }

  // What is published of the policy is the payload of its second read: two snapshots
  // agree if the owner's cursor stood the same at those reads, and where no policy
  // comes back under another count, only if. (A bump that changes nothing, or changes
  // it back, moves the cursor and leaves the payloads equal.)
  lemma PolicyAgreesWhenRead<P(!new)>(db: Database<P>, writes: seq<Write<P>>, i: nat, j: nat, k: nat, l: nat)
    requires WellBumped(db, writes) && i <= j <= |writes| && k <= l <= |writes|
    ensures var a := LoadPolicy(StateAt(db, writes, i), StateAt(db, writes, j));
      var b := LoadPolicy(StateAt(db, writes, k), StateAt(db, writes, l));
      var same := PolicyCursor(StateAt(db, writes, j)) == PolicyCursor(StateAt(db, writes, l));
      && (same ==> a.payload == b.payload)
      && (NoPolicyReturns(db, writes) ==> (a.payload == b.payload <==> same))
  {
    hide StateAt, WellBumped, CursorOf;
    if PolicyCursor(StateAt(db, writes, j)) == PolicyCursor(StateAt(db, writes, l)) {
      OnePayloadPerCursor(db, writes, OperationPolicyStream, j, l);
    }
  }

  // The cursor has not moved between the two reads, as a third read of it would show.
  predicate Settled<P>(early: Database<P>, late: Database<P>) {
    PolicyCursor(early) == PolicyCursor(late)
  }

  // One payload per published cursor, for the reads that find the cursor unmoved.
  lemma SettledPoliciesAgree<P(!new)>(db: Database<P>, writes: seq<Write<P>>, i: nat, j: nat, k: nat, l: nat)
    requires WellBumped(db, writes) && i <= j <= |writes| && k <= l <= |writes|
    requires Settled(StateAt(db, writes, i), StateAt(db, writes, j))
    requires Settled(StateAt(db, writes, k), StateAt(db, writes, l))
    requires LoadPolicy(StateAt(db, writes, i), StateAt(db, writes, j)).cursor
          == LoadPolicy(StateAt(db, writes, k), StateAt(db, writes, l)).cursor
    ensures LoadPolicy(StateAt(db, writes, i), StateAt(db, writes, j))
         == LoadPolicy(StateAt(db, writes, k), StateAt(db, writes, l))
  {
    hide StateAt, WellBumped, CursorOf;
    PolicyAgreesWhenRead(db, writes, i, j, k, l);
  }

  // Where every bump changes the policy for good the condition is exact: of two snapshots
  // under one cursor, one of them settled, the payloads agree exactly when both are.
  lemma PoliciesAgreeIffSettled<P(!new)>(db: Database<P>, writes: seq<Write<P>>, i: nat, j: nat, k: nat, l: nat)
    requires WellBumped(db, writes) && NoPolicyReturns(db, writes) && i <= j <= |writes| && k <= l <= |writes|
    requires LoadPolicy(StateAt(db, writes, i), StateAt(db, writes, j)).cursor
          == LoadPolicy(StateAt(db, writes, k), StateAt(db, writes, l)).cursor
    requires Settled(StateAt(db, writes, i), StateAt(db, writes, j))
    ensures LoadPolicy(StateAt(db, writes, i), StateAt(db, writes, j)).payload
         == LoadPolicy(StateAt(db, writes, k), StateAt(db, writes, l)).payload
      <==> Settled(StateAt(db, writes, k), StateAt(db, writes, l))
  {
    hide StateAt, WellBumped, CursorOf;
    if Settled(StateAt(db, writes, k), StateAt(db, writes, l)) { SettledPoliciesAgree(db, writes, i, j, k, l); }
  }

  // A write between the two reads of the policy.
  function Between<P>(content: Stream -> P, payload: P): Write<P> {
    Write([FacebookOperationPolicy], stream => if stream == OperationPolicyStream then payload else content(stream))
  }

  // It does publish two payloads under one cursor when a write falls between its two
  // reads, and reading in the other order would leave the old payload under the new
  // cursor for good.
  lemma PolicyOrderMatters<P>(db: Database<P>, payload: P)
    requires payload != db.content(OperationPolicyStream)
    ensures var writes := [Between(db.content, payload)];
      var s0, s1 := StateAt(db, writes, 0), StateAt(db, writes, 1);
      && WellBumped(db, writes)
      && LoadPolicy(s0, s0).cursor == LoadPolicy(s0, s1).cursor
      && LoadPolicy(s0, s0).payload != LoadPolicy(s0, s1).payload
      && LoadPolicy(s1, s0).cursor == CursorOf(s1, OperationPolicyStream)
      && LoadPolicy(s1, s0).payload != s1.content(OperationPolicyStream)
  {
    var w := Between(db.content, payload);
    var writes := [w];
    assert StateAt(db, writes, 1) == StateAt(Commit(db, w), [], 0) == Commit(db, w);
    assert WellBumped(Commit(db, w), []);
    assert FacebookOperationPolicy in w.bumps && FacebookOperationPolicy in KeysOf(OperationPolicyStream);
  }
}
