// This service and the automation process that executes offboards, together: what
// every step of either keeps of the holds taken for admitted offboards.

module CrossProcess {
  import opened Wrappers
  import opened Commands
  import opened Admissions
  import opened AdmissionLaws
  import opened Ownership
  import opened OwnershipLaws

  // An execution record of the automation process; it is created, then purged,
  // and never comes back.
  datatype Offboard = Offboard(envKey: string, target: Target, createdAt: int, purged: bool)

  // A complete read of the unpurged records of a target, with the stamp it carries.
  datatype Read = Read(target: Target, observedAt: int, rows: seq<SnapshotRow>, at: int)

  // An offboard this service has taken a hold for.
  datatype Obligation = Obligation(offboardId: string, envKey: string, target: Target)

  // `clock` is the automation process's; this service's times are parameters of its
  // steps. `displaced` are the admitted offboards whose hold was given to another record.
  datatype System = System(
    store: Store,
    offboards: map<string, Offboard>,
    taken: set<Read>,
    clock: int,
    admitted: set<Obligation>,
    displaced: set<Obligation>)

  function Holds(s: System): map<string, Hold> { s.store.tables.holds }

  datatype SystemEvent =
    | Send(target: Target, command: Command, now: int, locked: set<string>)
    | Direct(revocationId: string, offboardId: string, now: int)
    | Operate(op: StoreOp)
    | Create(offboardId: string, envKey: string, target: Target, at: int)
    | Purge(offboardId: string)
    | TakeRead(read: Read)

  // ---------- Assumptions on the environment of this service ----------

  // A read lists exactly the unpurged records of its target.
  ghost predicate Faithful(s: System, rd: Read) {
    && (forall row | row in rd.rows ::
          && row.offboardId in s.offboards
          && var r := s.offboards[row.offboardId]; !r.purged && r.envKey == row.envKey && r.target == rd.target)
    && (forall o | o in s.offboards && !s.offboards[o].purged && s.offboards[o].target == rd.target ::
          s.offboards[o].envKey in EnvKeys(rd.rows))
  }

  ghost predicate Enabled(s: System, ev: SystemEvent) {
    match ev
    // A snapshot comes from a read, however late; a materialised receipt follows
    // the record's creation and is not stamped earlier.
    case Send(target, c, _, _) =>
      && (c.Reconcile? ==>
            exists rd | rd in s.taken :: rd.target == target && rd.observedAt == c.observedAt && rd.rows == c.rows)
      && (c.Record? && c.result.Materialized? ==>
            && c.result.offboardId in s.offboards
            && s.offboards[c.result.offboardId].createdAt <= Micros(c.result.materializedAt))
    // The direct path stamps this service's clock: not behind any creation.
    case Direct(_, offboardId, now) =>
      && offboardId in s.offboards
      && (forall o | o in s.offboards :: s.offboards[o].createdAt <= now)
    case Operate(_) => true
    // Record ids are new; ids this service has not drawn are unknown to automation;
    // an admitted offboard is created for the environment it was admitted for.
    case Create(offboardId, envKey, target, at) =>
      && offboardId !in s.offboards && at > s.clock
      && (forall n: nat | n >= s.store.tables.issued :: offboardId != IssuedOffboardId(n))
      && (forall a | a in s.admitted && a.offboardId == offboardId :: a.envKey == envKey && a.target == target)
    case Purge(offboardId) => offboardId in s.offboards
    // A stamp is not later than its read, and stamps do not go back.
    case TakeRead(rd) =>
      && rd.at > s.clock && Micros(rd.observedAt) <= rd.at
      && (forall other | other in s.taken && other.target == rd.target :: other.observedAt <= rd.observedAt)
      && Faithful(s, rd)
  }

  // ---------- Steps ----------

  // The offboards of the holds a step added.
  function NewlyAdmitted(before: map<string, Hold>, after: map<string, Hold>): set<Obligation> {
    set e | e in after && e !in before && after[e].target.Some? ::
      Obligation(after[e].offboardId, e, after[e].target.value)
  }

  // An offboard that gets a hold anew is no longer displaced.
  function Admitting(s: System, next: Store): System {
    var gained := NewlyAdmitted(Holds(s), next.tables.holds);
    s.(store := next, admitted := s.admitted + gained, displaced := s.displaced - gained)
  }

  function WithTables(s: System, t: Tables): System {
    Admitting(s, s.store.(tables := t))
  }

  // The direct path may find another record already running for the environment: the
  // row then names that one, and the offboard it was taken for, if not created yet,
  // is left without a row of its own.
  predicate Displaces(s: System, ev: SystemEvent, a: Obligation) {
    && ev.Direct?
    && a.envKey in Holds(s)
    && Holds(s)[a.envKey].revocationId == ev.revocationId
    && a.offboardId !in s.offboards
  }

  function DirectlyAdmitted(s: System, revocationId: string, offboardId: string): set<Obligation> {
    if offboardId !in s.offboards then {}
    else
      var r := s.offboards[offboardId];
      if IsRow(Holds(s), r.envKey, revocationId, r.target) then {Obligation(offboardId, r.envKey, r.target)} else {}
  }

  function Purged(offboards: map<string, Offboard>, offboardId: string): map<string, Offboard> {
    map o | o in offboards :: if o == offboardId then offboards[o].(purged := true) else offboards[o]
  }

  ghost function Next(s: System, ev: SystemEvent): System {
    match ev
    case Send(target, c, now, locked) =>
      WithTables(s, After(s.store.tables, Deliver(s.store.tables, target, c, now, locked)))
    case Direct(revocationId, offboardId, now) =>
      s.(store := s.store.(tables := RecordDirectly(s.store.tables, revocationId, offboardId, now)),
         admitted := s.admitted + DirectlyAdmitted(s, revocationId, offboardId),
         displaced := s.displaced + (set a | a in s.admitted && Displaces(s, ev, a))
                      - DirectlyAdmitted(s, revocationId, offboardId))
    case Operate(op) => Admitting(s, AfterStore(s.store, Perform(s.store, op)))
    case Create(offboardId, envKey, target, at) =>
      s.(offboards := s.offboards[offboardId := Offboard(envKey, target, at, false)], clock := at)
    case Purge(offboardId) =>
      s.(offboards := Purged(s.offboards, offboardId))
    case TakeRead(rd) =>
      s.(taken := s.taken + {rd}, clock := rd.at)
  }

  // ---------- The invariant ----------

  // No snapshot the ledger would still apply was read before the record existed.
  ghost predicate ReadsAreLater(s: System, r: Offboard) {
    && r.target in s.store.tables.snapshots
    && forall rd | rd in s.taken && rd.target == r.target
                   && rd.observedAt > s.store.tables.snapshots[r.target].observedAt :: r.createdAt < rd.at
  }

  // The hold of a created offboard: its own while pending; once materialised,
  // protected by its stamp or by the order of the reads.
  ghost predicate Covered(s: System, offboardId: string)
    requires offboardId in s.offboards
  {
    var r := s.offboards[offboardId];
    && r.envKey in Holds(s)
    && var h := Holds(s)[r.envKey];
       && h.target == Some(r.target)
       && match h.materializedAt
          case None => h.offboardId == offboardId
          case Some(m) => r.createdAt <= m || ReadsAreLater(s, r)
  }

  // The hold of an admitted offboard that automation has not created yet.
  ghost predicate Waiting(s: System, a: Obligation) {
    && a.envKey in Holds(s)
    && var h := Holds(s)[a.envKey];
       h.offboardId == a.offboardId && h.materializedAt.None? && h.target == Some(a.target)
  }

  ghost predicate Secured(s: System, a: Obligation) {
    if a.offboardId in s.offboards then
      var r := s.offboards[a.offboardId];
      r.envKey == a.envKey && r.target == a.target && (r.purged || Covered(s, a.offboardId))
    else Waiting(s, a)
  }

  // What a read said, looked back at from now.
  ghost predicate ReadInv(offboards: map<string, Offboard>, clock: int, rd: Read) {
    && rd.at <= clock && Micros(rd.observedAt) <= rd.at
    && (forall row | row in rd.rows ::
          && row.offboardId in offboards
          && var r := offboards[row.offboardId];
             r.createdAt < rd.at && r.envKey == row.envKey && r.target == rd.target)
    && (forall o | o in offboards && offboards[o].target == rd.target ::
          && offboards[o].createdAt != rd.at
          && (offboards[o].createdAt < rd.at && !offboards[o].purged ==> offboards[o].envKey in EnvKeys(rd.rows)))
  }

  ghost predicate StampsOrdered(taken: set<Read>) {
    forall q, r | q in taken && r in taken && q.target == r.target && q.at <= r.at :: q.observedAt <= r.observedAt
  }

  ghost predicate AutomationInv(offboards: map<string, Offboard>, clock: int, taken: set<Read>) {
    && (forall o | o in offboards :: offboards[o].createdAt <= clock)
    && (forall rd | rd in taken :: ReadInv(offboards, clock, rd))
    && StampsOrdered(taken)
  }

  ghost predicate UndrawnUnknown(s: System) {
    forall n: nat | n >= s.store.tables.issued ::
      && IssuedOffboardId(n) !in s.offboards
      && forall a | a in s.admitted :: a.offboardId != IssuedOffboardId(n)
  }

  ghost predicate AllSecured(s: System) {
    forall a | a in s.admitted && a !in s.displaced :: Secured(s, a)
  }

  ghost predicate Inv(s: System) {
    AutomationInv(s.offboards, s.clock, s.taken) && UndrawnUnknown(s) && AllSecured(s)
  }

  // Any tables may be taken over, as long as no read or admission is outstanding.
  lemma Start(s: System)
    requires s.taken == {} && s.admitted == {}
    requires forall o | o in s.offboards :: s.offboards[o].createdAt <= s.clock
    requires forall n: nat | n >= s.store.tables.issued :: IssuedOffboardId(n) !in s.offboards
    ensures Inv(s)
  {
  }

  // ---------- An applied snapshot, in the terms of the read it came from ----------

  predicate AdoptedFrom(h: Hold, envKey: string, rd: Read) {
    && h.materializedAt.Some? && h.target == Some(rd.target)
    && exists row | row in rd.rows :: row.envKey == envKey && row.offboardId == h.offboardId
  }

  predicate Applies(t: Tables, rd: Read, t': Tables) {
    && Advances(t, rd.target, rd.observedAt)
    && t'.issued == t.issued
    && rd.target in t'.snapshots && t'.snapshots[rd.target].observedAt == rd.observedAt
    && (forall u | u in t.snapshots && u != rd.target :: u in t'.snapshots && t'.snapshots[u] == t.snapshots[u])
    && (forall e | e in t.holds && !Releasable(t.holds[e], e, rd.target, rd.observedAt, EnvKeys(rd.rows)) ::
          e in t'.holds && t'.holds[e] == t.holds[e])
    && (forall e | e in t'.holds && e !in t.holds :: AdoptedFrom(t'.holds[e], e, rd))
  }

  lemma SnapshotApplies(t: Tables, rd: Read, c: Command, now: int)
    requires c.Reconcile? && c.rows == rd.rows && c.observedAt == rd.observedAt
    requires AppliesSnapshot(t, rd.target, c, now)
    ensures Applies(t, rd, After(t, ReconcileTx(t, rd.target, c, now)))
  {
    hide Valid, PayloadHash, SnapshotDigest, AdoptedRevocationId, ReconcileTx, AdoptMissing, PrimaryKey, ApplySnapshot,
         ReadCommand, AllAssigned, Releasable, Release, Count;
    AppliedSnapshotTables(t, rd.target, c, now);
    AppliedSnapshotHolds(t, rd.target, c, now);
    var t' := After(t, ReconcileTx(t, rd.target, c, now));
    forall e | e in t'.holds && e !in t.holds ensures AdoptedFrom(t'.holds[e], e, rd) {
      assert e in t'.holds.Keys && e in AdoptedKeys(t.holds, c.rows);
      assert RowOf(c.rows, e) in rd.rows;
    }
    forall e | e in t.holds && !Releasable(t.holds[e], e, rd.target, rd.observedAt, EnvKeys(rd.rows))
      ensures e in t'.holds.Keys
    {
      assert e !in ReleasedKeys(t.holds, rd.target, c.observedAt, c.rows);
    }
  }

  // The stamp of a hold, or the order of the reads, keeps a snapshot from releasing
  // the hold of a record that is not purged: the read saw the record.
  lemma CoveredIsNotReleased(s: System, rd: Read, offboardId: string)
    requires ReadInv(s.offboards, s.clock, rd) && rd in s.taken && Advances(s.store.tables, rd.target, rd.observedAt)
    requires offboardId in s.offboards && !s.offboards[offboardId].purged && Covered(s, offboardId)
    ensures var e := s.offboards[offboardId].envKey;
      !Releasable(Holds(s)[e], e, rd.target, rd.observedAt, EnvKeys(rd.rows))
  {
  }

  lemma SnapshotKeepsCovered(s: System, rd: Read, t': Tables, offboardId: string)
    requires ReadInv(s.offboards, s.clock, rd) && rd in s.taken && Applies(s.store.tables, rd, t')
    requires offboardId in s.offboards && !s.offboards[offboardId].purged && Covered(s, offboardId)
    ensures Covered(WithTables(s, t'), offboardId)
  {
    hide ReadInv, Releasable, NewlyAdmitted, AdoptedFrom;
    CoveredIsNotReleased(s, rd, offboardId);
  }

  // An offboard still to be created has a pending hold, which no snapshot releases.
  lemma SnapshotKeepsSecured(s: System, rd: Read, t': Tables, a: Obligation)
    requires ReadInv(s.offboards, s.clock, rd) && rd in s.taken && Applies(s.store.tables, rd, t') && Secured(s, a)
    ensures Secured(WithTables(s, t'), a)
  {
    hide ReadInv, NewlyAdmitted, AdoptedFrom, Covered;
    if a.offboardId in s.offboards && !s.offboards[a.offboardId].purged {
      SnapshotKeepsCovered(s, rd, t', a.offboardId);
    }
  }

  // A record a snapshot adopts is covered from then on: later stamps mean later reads.
  lemma SnapshotCoversAdopted(s: System, rd: Read, t': Tables, envKey: string)
    requires AutomationInv(s.offboards, s.clock, s.taken) && rd in s.taken && Applies(s.store.tables, rd, t')
    requires envKey in t'.holds && envKey !in Holds(s)
    ensures t'.holds[envKey].target == Some(rd.target) && t'.holds[envKey].offboardId in s.offboards
    ensures Secured(WithTables(s, t'), Obligation(t'.holds[envKey].offboardId, envKey, rd.target))
  {
    hide NewlyAdmitted, Releasable;
    assert ReadInv(s.offboards, s.clock, rd) && AdoptedFrom(t'.holds[envKey], envKey, rd);
  }

  lemma SnapshotKeepsInv(s: System, rd: Read, t': Tables)
    requires Inv(s) && rd in s.taken && Applies(s.store.tables, rd, t')
    ensures Inv(WithTables(s, t'))
  {
    hide Secured, IssuedOffboardId, ReadInv, StampsOrdered, Releasable, AdoptedFrom;
    var s' := WithTables(s, t');
    var gained := NewlyAdmitted(Holds(s), t'.holds);
    forall a | a in gained ensures Secured(s', a) && a.offboardId in s.offboards {
      SnapshotCoversAdopted(s, rd, t', a.envKey);
    }
    forall a | a in s'.admitted && a !in s'.displaced ensures Secured(s', a) {
      if a !in gained { SnapshotKeepsSecured(s, rd, t', a); }
    }
  }

  lemma ReconcileKeepsInv(s: System, target: Target, c: Command, now: int)
    requires Inv(s) && c.Reconcile? && Enabled(s, Send(target, c, now, {}))
    ensures Inv(WithTables(s, After(s.store.tables, ReconcileTx(s.store.tables, target, c, now))))
  {
    hide Valid, PayloadHash, SnapshotDigest, ReconcileTx, Inv, AppliesSnapshot, Applies;
    var t := s.store.tables;
    if AppliesSnapshot(t, target, c, now) {
      var rd :| rd in s.taken && rd.target == target && rd.observedAt == c.observedAt && rd.rows == c.rows;
      SnapshotApplies(t, rd, c, now);
      SnapshotKeepsInv(s, rd, After(t, ReconcileTx(t, target, c, now)));
    } else {
      OtherReconcilesAreInert(t, target, c, now);
      RowsEvolveKeepsInv(s, After(t, ReconcileTx(t, target, c, now)));
    }
  }

  // ---------- Claims and receipts ----------

  // They change rows in place. Pending rows stay their offboard's until the receipt
  // for that very offboard, stamped no earlier than its creation.
  ghost predicate RowsEvolve(s: System, t': Tables) {
    && t'.holds.Keys == Holds(s).Keys
    && t'.snapshots == s.store.tables.snapshots && t'.issued == s.store.tables.issued
    && forall e | e in t'.holds ::
         var h, g := Holds(s)[e], t'.holds[e];
         && g.target == h.target && g.offboardId == h.offboardId
         && (g.materializedAt == h.materializedAt
             || (h.materializedAt.None? && g.materializedAt.Some?
                 && h.offboardId in s.offboards
                 && s.offboards[h.offboardId].createdAt <= g.materializedAt.value))
  }

  lemma RowsEvolveKeepsInv(s: System, t': Tables)
    requires Inv(s) && RowsEvolve(s, t')
    ensures Inv(WithTables(s, t'))
  {
    hide IssuedOffboardId, AutomationInv;
    var s' := WithTables(s, t');
    assert s'.admitted == s.admitted;
    forall a | a in s.admitted && a !in s.displaced ensures Secured(s', a) {
      assert Secured(s, a);
    }
  }

  lemma ClaimKeepsInv(s: System, target: Target, c: Command, now: int, locked: set<string>)
    requires Inv(s) && c.Claim?
    ensures Inv(WithTables(s, After(s.store.tables, ClaimTx(s.store.tables, target, c, now, locked))))
  {
    hide Valid, PayloadHash, ClaimToken, ClaimTx, Inv;
    var t := s.store.tables;
    ClaimShape(t, target, c, now, locked);
    RowsEvolveKeepsInv(s, After(t, ClaimTx(t, target, c, now, locked)));
  }

  lemma RecordKeepsInv(s: System, target: Target, c: Command)
    requires Inv(s) && c.Record? && Enabled(s, Send(target, c, 0, {}))
    ensures Inv(WithTables(s, After(s.store.tables, RecordTx(s.store.tables, target, c))))
  {
    hide Valid, PayloadHash, RecordTx, Inv;
    var t := s.store.tables;
    RecordShape(t, target, c);
    RowsEvolveKeepsInv(s, After(t, RecordTx(t, target, c)));
  }

  // ---------- The direct path ----------

  // For an offboard still to be created a direct step displaces it exactly when it
  // changes the row that was taken for it; the row then names another record.
  lemma DisplacesIff(s: System, ev: SystemEvent, a: Obligation)
    requires AllSecured(s) && a in s.admitted && a !in s.displaced && a.offboardId !in s.offboards
    requires ev.Direct? && Enabled(s, ev)
    ensures a.envKey in Holds(s) && a.envKey in Holds(Next(s, ev))
    ensures Displaces(s, ev, a) <==> Holds(Next(s, ev))[a.envKey] != Holds(s)[a.envKey]
    ensures Displaces(s, ev, a) <==> Holds(Next(s, ev))[a.envKey].offboardId != a.offboardId
  {
    assert Secured(s, a);
  }

  lemma DirectKeepsInv(s: System, revocationId: string, offboardId: string, now: int)
    requires Inv(s) && Enabled(s, Direct(revocationId, offboardId, now))
    ensures Inv(Next(s, Direct(revocationId, offboardId, now)))
  {
    hide IssuedOffboardId, AutomationInv, Deliver, Perform, ReadsAreLater;
    var s' := Next(s, Direct(revocationId, offboardId, now));
    forall a | a in s'.admitted && a !in s'.displaced ensures Secured(s', a) {
      assert a in s.admitted && a !in s.displaced ==> Secured(s, a);
      SameReadsAreLater(s, s');
    }
  }

  // The order of the reads speaks of reads and cursors only.
  lemma SameReadsAreLater(s: System, s': System)
    requires s'.taken == s.taken && s'.store.tables.snapshots == s.store.tables.snapshots
    ensures forall r :: ReadsAreLater(s, r) <==> ReadsAreLater(s', r)
  {
  }

  // ---------- Store transactions ----------

  lemma OperateKeepsInv(s: System, op: StoreOp)
    requires Inv(s)
    ensures Inv(Next(s, Operate(op)))
  {
    hide Perform, OneOwner, IssuedOffboardId, AutomationInv, Deliver, NeedsCleanup, Audited, Removed;
    var next := AfterStore(s.store, Perform(s.store, op));
    OperationLaws(s.store, op);
    AdmittingKeepsInv(s, next);
  }

  lemma AdmittingKeepsInv(s: System, next: Store)
    requires Inv(s) && AddsPendingHolds(s.store.tables, next.tables)
    ensures Inv(Admitting(s, next))
  {
    hide IssuedOffboardId, AutomationInv, ReadsAreLater;
    var s' := Admitting(s, next);
    var t, t' := s.store.tables, next.tables;
    SameReadsAreLater(s, s');
    forall e | e in t'.holds && e !in t.holds
      ensures t'.holds[e].offboardId !in s.offboards
      ensures forall n: nat | n >= t'.issued :: t'.holds[e].offboardId != IssuedOffboardId(n)
    {
      var m: nat :| t.issued <= m < t'.issued && t'.holds[e].offboardId == IssuedOffboardId(m);
      forall n: nat | n >= t'.issued ensures IssuedOffboardId(m) != IssuedOffboardId(n) { IssuedIdsDiffer(m, n); }
    }
    forall a | a in s'.admitted && a !in s'.displaced ensures Secured(s', a) {
      assert a in s.admitted && a !in s.displaced ==> Secured(s, a);
    }
  }

  // ---------- The automation process ----------

  lemma CreateKeepsInv(s: System, ev: SystemEvent)
    requires Inv(s) && Enabled(s, ev) && ev.Create?
    ensures Inv(Next(s, ev))
  {
    hide IssuedOffboardId, Deliver, Perform;
    var s' := Next(s, ev);
    SameReadsAreLater(s, s');
    forall a | a in s'.admitted && a !in s'.displaced ensures Secured(s', a) {
      hide ReadsAreLater, AutomationInv;
      assert Secured(s, a);
    }
    forall rd | rd in s'.taken ensures ReadInv(s'.offboards, s'.clock, rd) {
      assert ReadInv(s.offboards, s.clock, rd);
    }
  }

  lemma PurgeKeepsInv(s: System, offboardId: string)
    requires Inv(s)
    ensures Inv(Next(s, Purge(offboardId)))
  {
    hide IssuedOffboardId, Deliver, Perform;
    var s' := Next(s, Purge(offboardId));
    SameReadsAreLater(s, s');
    forall a | a in s'.admitted && a !in s'.displaced ensures Secured(s', a) {
      hide ReadsAreLater, AutomationInv;
      assert Secured(s, a);
    }
    forall rd | rd in s'.taken ensures ReadInv(s'.offboards, s'.clock, rd) {
      assert ReadInv(s.offboards, s.clock, rd);
    }
  }

  lemma TakeReadKeepsInv(s: System, read: Read)
    requires Inv(s) && Enabled(s, TakeRead(read))
    ensures Inv(Next(s, TakeRead(read)))
  {
    hide IssuedOffboardId, Deliver, Perform;
    var s' := Next(s, TakeRead(read));
    forall a | a in s'.admitted && a !in s'.displaced ensures Secured(s', a) {
      assert Secured(s, a);
    }
    forall rd | rd in s'.taken ensures ReadInv(s'.offboards, s'.clock, rd) {
      if rd in s.taken { assert ReadInv(s.offboards, s.clock, rd); }
    }
  }

  // ---------- Any step ----------

  lemma StepKeepsInv(s: System, ev: SystemEvent)
    requires Inv(s) && Enabled(s, ev)
    ensures Inv(Next(s, ev))
  {
    hide Inv, WithTables, ReconcileTx, ClaimTx, RecordTx, Perform;
    match ev
    case Send(target, c, now, locked) =>
      match c {
        case Reconcile(_, _, _, _) => ReconcileKeepsInv(s, target, c, now);
        case Claim(_, _, _, _, _) => ClaimKeepsInv(s, target, c, now, locked);
        case Record(_, _, _, _, _) => RecordKeepsInv(s, target, c);
      }
    case Direct(revocationId, offboardId, now) => DirectKeepsInv(s, revocationId, offboardId, now);
    case Operate(op) => OperateKeepsInv(s, op);
    case Create(_, _, _, _) => CreateKeepsInv(s, ev);
    case Purge(offboardId) => PurgeKeepsInv(s, offboardId);
    case TakeRead(read) => TakeReadKeepsInv(s, read);
  }
}
