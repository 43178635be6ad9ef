// What goes wrong without either guard of the release, and when the direct path gives
// the hold of an offboard to another record.

module ReleaseHazards {
  import opened Wrappers
  import opened Text
  import opened Commands
  import opened Admissions
  import opened AdmissionLaws
  import opened SnapshotRuns
  import opened Ownership
  import opened OwnershipLaws
  import opened CrossProcess
  import opened CrossProcessRuns

  // ---------- The pass that releases without a time guard ----------

  // `reconcileCleanupAdmissions`: adopt what the read lists, then drop every
  // materialised hold it does not list, whenever that was materialised.
  function ReleaseUnlisted(holds: map<string, Hold>, target: Target, keys: set<string>): map<string, Hold> {
    map e | e in holds && !(holds[e].materializedAt.Some? && holds[e].target == Some(target) && e !in keys) :: holds[e]
  }

  function Pass(t: Tables, rd: Read, now: int): Option<Tables> {
    match AdoptMissing(t.holds, rd.rows, rd.target, now)
    case None => None
    case Some(adopted) => Some(t.(holds := ReleaseUnlisted(adopted, rd.target, EnvKeys(rd.rows))))
  }

  // Exactly the materialised holds the read does not list are lost.
  lemma PassReleases(t: Tables, rd: Read, now: int, envKey: string)
    requires Pass(t, rd, now).Some? && envKey in t.holds
    ensures envKey in Pass(t, rd, now).value.holds
      <==> !(t.holds[envKey].materializedAt.Some? && t.holds[envKey].target == Some(rd.target)
             && envKey !in EnvKeys(rd.rows))
    ensures envKey in Pass(t, rd, now).value.holds ==> Pass(t, rd, now).value.holds[envKey] == t.holds[envKey]
  {
    hide AdoptedHold, PrimaryKey;
    AdoptMissingEffect(t.holds, rd.rows, rd.target, now);
  }

  // A record whose hold the pass drops was created after the read and materialised
  // before the delete, and every such record's hold is dropped.
  lemma PassLosesTheLateOnes(s: System, rd: Read, now: int, offboardId: string)
    requires Inv(s) && rd in s.taken && Pass(s.store.tables, rd, now).Some?
    requires offboardId in s.offboards && !s.offboards[offboardId].purged && Covered(s, offboardId)
    requires s.offboards[offboardId].target == rd.target
    ensures var r := s.offboards[offboardId];
      r.envKey !in Pass(s.store.tables, rd, now).value.holds
      <==> r.envKey !in EnvKeys(rd.rows) && Holds(s)[r.envKey].materializedAt.Some?
    ensures var r := s.offboards[offboardId];
      r.envKey !in Pass(s.store.tables, rd, now).value.holds ==> r.createdAt > rd.at
  {
    hide Pass, UndrawnUnknown, AllSecured, StampsOrdered;
    PassReleases(s.store.tables, rd, now, s.offboards[offboardId].envKey);
    assert ReadInv(s.offboards, s.clock, rd);
  }

  // With nothing in between, that is on a read of the present records, the pass is safe.
  lemma PassOnPresentRead(s: System, rd: Read, now: int, offboardId: string)
    requires Faithful(s, rd) && Pass(s.store.tables, rd, now).Some?
    requires offboardId in s.offboards && !s.offboards[offboardId].purged && Covered(s, offboardId)
    ensures var r := s.offboards[offboardId];
      r.envKey in Pass(s.store.tables, rd, now).value.holds
      && Pass(s.store.tables, rd, now).value.holds[r.envKey] == Holds(s)[r.envKey]
  {
    hide Pass, ReadsAreLater;
    PassReleases(s.store.tables, rd, now, s.offboards[offboardId].envKey);
  }

  // An admitted offboard that automation has created and not purged.
  predicate Ongoing(s: System, a: Obligation) {
    a in s.admitted && a.offboardId in s.offboards && !s.offboards[a.offboardId].purged
  }

  // Read, create, materialise on the direct path.
  function Race(rd: Read, a: Obligation, revocationId: string, at: int, now: int): seq<SystemEvent> {
    [TakeRead(rd), Create(a.offboardId, a.envKey, a.target, at), Direct(revocationId, a.offboardId, now)]
  }

  // An offboard that waits for its record, and a read that does not list its environment.
  predicate Unlisted(s: System, rd: Read, a: Obligation) {
    && Live(s, a) && a.offboardId !in s.offboards
    && (forall b | b in s.admitted && b.offboardId == a.offboardId :: b == a)
    && a.target == rd.target && a.envKey !in EnvKeys(rd.rows)
  }

  lemma ReachThree(s: System, x: SystemEvent, y: SystemEvent, z: SystemEvent)
    ensures Reach(s, [x, y, z]) == Next(Next(Next(s, x), y), z)
    ensures Possible(s, [x, y, z]) <==>
      Enabled(s, x) && Enabled(Next(s, x), y) && Enabled(Next(Next(s, x), y), z)
  {
    hide Next, Enabled, Reach, Possible;
    NoSteps(s);
    RunThen(s, [], x);
    RunThen(s, [x], y);
    RunThen(s, [x, y], z);
    assert [] + [x] == [x] && [x] + [y] == [x, y] && [x, y] + [z] == [x, y, z];
  }

  lemma NoSteps(s: System)
    ensures Reach(s, []) == s && Possible(s, [])
  {
  }

  // The run that loses a hold: such a race between the read and the delete of the
  // pass. The guarded release, with the same read, keeps it.
  lemma PassRaces(s: System, rd: Read, a: Obligation, revocationId: string, at: int, now: int, passAt: int)
    requires Inv(s) && Enabled(s, TakeRead(rd)) && Unlisted(s, rd, a)
    requires IsRow(Holds(s), a.envKey, revocationId, a.target)
    requires rd.at < at <= now
    ensures var s' := Reach(s, Race(rd, a, revocationId, at, now));
      && Possible(s, Race(rd, a, revocationId, at, now)) && Ongoing(s', a)
      && (Pass(s'.store.tables, rd, passAt).Some? ==> a.envKey !in Pass(s'.store.tables, rd, passAt).value.holds)
      && a.envKey in Holds(s')
      && !Releasable(Holds(s')[a.envKey], a.envKey, rd.target, rd.observedAt, EnvKeys(rd.rows))
  {
    hide Pass, Faithful, Deliver, Perform, IssuedOffboardId, Reach, Possible;
    var events := Race(rd, a, revocationId, at, now);
    ReachThree(s, events[0], events[1], events[2]);
    assert Secured(s, a);
    var s1 := Next(s, events[0]);
    assert Enabled(s1, events[1]);
    var s2 := Next(s1, events[1]);
    assert Enabled(s2, events[2]);
    var s3 := Next(s2, events[2]);
    if Pass(s3.store.tables, rd, passAt).Some? {
      PassReleases(s3.store.tables, rd, passAt, a.envKey);
    }
  }

  // ---------- The stale-snapshot rejection ----------

  // A hold adopted while this service's clock lags is stamped below its record's
  // creation, so the time guard alone would let an older snapshot release it; the
  // ledger refuses that snapshot.
  lemma StaleSnapshotIsRefused(s: System, late: Read, c: Command, now: int, offboardId: string)
    requires Inv(s) && late in s.taken && Valid(c)
    requires c.Reconcile? && c.rows == late.rows && c.observedAt == late.observedAt
    requires AllAssigned(Holds(s)) && ReadCommand(s.store.tables, late.target, c).Missing?
    requires offboardId in s.offboards && !s.offboards[offboardId].purged && Covered(s, offboardId)
    requires s.offboards[offboardId].target == late.target && s.offboards[offboardId].createdAt > late.at
    requires var h := Holds(s)[s.offboards[offboardId].envKey];
      h.materializedAt.Some? && h.materializedAt.value <= Micros(late.observedAt)
    requires s.offboards[offboardId].envKey !in EnvKeys(late.rows)
    ensures var e := s.offboards[offboardId].envKey;
      && (ApplySnapshot(s.store.tables, late.target, c, now).Committed? ==>
            e !in ApplySnapshot(s.store.tables, late.target, c, now).tables.holds)
      && !Advances(s.store.tables, late.target, c.observedAt)
      && e in After(s.store.tables, ReconcileTx(s.store.tables, late.target, c, now)).holds
  {
    hide Valid, PayloadHash, SnapshotDigest, AdoptedHold, UndrawnUnknown, AdoptMissing, ReconcileTx, StampsOrdered,
         PrimaryKey;
    assert ReadInv(s.offboards, s.clock, late);
    if AdoptMissing(Holds(s), c.rows, late.target, now).Some? {
      AdoptMissingEffect(Holds(s), c.rows, late.target, now);
    }
    OtherReconcilesAreInert(s.store.tables, late.target, c, now);
  }

  // ---------- Displaced offboards ----------

  // The direct path finds another record for the environment, that one is purged, a
  // snapshot releases the row, and a worker that claimed the hold before creates the
  // record of the offboard the hold was taken for.
  function Displacement(revocationId: string, x: string, now: int, rd: Read, c: Command, apiNow: int, a: Obligation,
                        at: int): seq<SystemEvent>
  {
    [Direct(revocationId, x, now), Purge(x), TakeRead(rd), Send(rd.target, c, apiNow, {}),
     Create(a.offboardId, a.envKey, a.target, at)]
  }

  lemma ReachFive(s: System, u: SystemEvent, v: SystemEvent, x: SystemEvent, y: SystemEvent, z: SystemEvent)
    ensures var s2 := Next(Next(s, u), v);
      var s4 := Next(Next(s2, x), y);
      && Reach(s, [u, v, x, y, z]) == Next(s4, z)
      && (Possible(s, [u, v, x, y, z]) <==>
            Enabled(s, u) && Enabled(Next(s, u), v) && Enabled(s2, x) && Enabled(Next(s2, x), y) && Enabled(s4, z))
  {
    hide Next, Enabled, Reach, Possible;
    ReachThree(s, u, v, x);
    RunThen(s, [u, v, x], y);
    RunThen(s, [u, v, x, y], z);
    assert [u, v, x] + [y] == [u, v, x, y] && [u, v, x, y] + [z] == [u, v, x, y, z];
  }

  // After the direct step: the row is materialised for the other record, and the
  // offboard is displaced.
  lemma AfterDisplacing(s: System, rd: Read, a: Obligation, revocationId: string, x: string, now: int)
    requires Inv(s) && Unlisted(s, rd, a) && IsRow(Holds(s), a.envKey, revocationId, a.target)
    requires x in s.offboards
    ensures var s1 := Next(s, Direct(revocationId, x, now));
      && Displaces(s, Direct(revocationId, x, now), a)
      && a.envKey in Holds(s1) && Holds(s1)[a.envKey].materializedAt == Some(now)
      && Holds(s1)[a.envKey].target == Some(a.target)
      && a in s1.admitted && a in s1.displaced
      && s1.offboards == s.offboards && s1.taken == s.taken && s1.clock == s.clock
      && (forall b | b in s1.admitted && b.offboardId == a.offboardId :: b == a)
  {
    hide Deliver, Perform, IssuedOffboardId;
    assert Secured(s, a);
  }

  // The snapshot releases the row.
  lemma ReleasesDisplaced(s: System, rd: Read, a: Obligation, c: Command, apiNow: int)
    requires rd in s.taken && c.Reconcile? && c.rows == rd.rows && c.observedAt == rd.observedAt
    requires AppliesSnapshot(s.store.tables, rd.target, c, apiNow)
    requires a.envKey in Holds(s) && a.envKey !in EnvKeys(rd.rows)
    requires Releasable(Holds(s)[a.envKey], a.envKey, rd.target, rd.observedAt, EnvKeys(rd.rows))
    requires a in s.admitted && a in s.displaced
    requires forall b | b in s.admitted && b.offboardId == a.offboardId :: b == a
    requires ReadInv(s.offboards, s.clock, rd) && a.offboardId !in s.offboards
    ensures var s' := Next(s, Send(rd.target, c, apiNow, {}));
      && a.envKey !in Holds(s')
      && a in s'.admitted && a in s'.displaced
      && s'.offboards == s.offboards && s'.clock == s.clock
      && (forall b | b in s'.admitted && b.offboardId == a.offboardId :: b == a)
  {
    hide Valid, PayloadHash, SnapshotDigest, AdoptedHold, ReconcileTx, AppliesSnapshot, AdoptMissing, PrimaryKey,
         Releasable, Release, Count, Perform, ClaimTx, RecordTx, Applies;
    var t := s.store.tables;
    AppliedSnapshotTables(t, rd.target, c, apiNow);
    AppliedSnapshotHolds(t, rd.target, c, apiNow);
    SnapshotApplies(t, rd, c, apiNow);
    var t' := ReconcileTx(t, rd.target, c, apiNow).tables;
    assert a.envKey !in t'.holds.Keys;
    forall e | e in t'.holds && e !in t.holds ensures t'.holds[e].offboardId in s.offboards {
      AdoptedAreRecords(s, rd, t', e);
    }
  }

  lemma AdoptedAreRecords(s: System, rd: Read, t': Tables, e: string)
    requires ReadInv(s.offboards, s.clock, rd) && Applies(s.store.tables, rd, t')
    requires e in t'.holds && e !in Holds(s)
    ensures t'.holds[e].offboardId in s.offboards
  {
    hide Releasable;
    assert AdoptedFrom(t'.holds[e], e, rd);
  }

  // So the hold of an offboard does not survive every run: any displacement can be
  // followed by steps that lose it, leaving a live record without a hold.
  lemma DisplacedHoldIsLost(s: System, rd: Read, a: Obligation, revocationId: string, x: string, now: int, c: Command,
                            apiNow: int, at: int)
    requires Inv(s) && Unlisted(s, rd, a) && IsRow(Holds(s), a.envKey, revocationId, a.target)
    requires Enabled(s, Direct(revocationId, x, now))
    requires c.Reconcile? && c.rows == rd.rows && c.observedAt == rd.observedAt
    requires var s2 := Next(Next(s, Direct(revocationId, x, now)), Purge(x));
      Enabled(s2, TakeRead(rd)) && AppliesSnapshot(s2.store.tables, rd.target, c, apiNow)
    requires now <= Micros(rd.observedAt) && rd.at < at
    ensures var run := Displacement(revocationId, x, now, rd, c, apiNow, a, at);
      var s' := Reach(s, run);
      && Possible(s, run) && !NeverDisplaced(s, run, a)
      && Ongoing(s', a) && a.envKey !in Holds(s')
  {
    hide Deliver, Perform, IssuedOffboardId, Reach, Possible, AppliesSnapshot, Faithful, Inv;
    var run := Displacement(revocationId, x, now, rd, c, apiNow, a, at);
    ReachFive(s, run[0], run[1], run[2], run[3], run[4]);
    var s1 := Next(s, run[0]);
    AfterDisplacing(s, rd, a, revocationId, x, now);
    StepKeepsInv(s, run[0]);
    var s2 := Next(s1, run[1]);
    StepKeepsInv(s1, run[1]);
    var s3 := Next(s2, run[2]);
    StepKeepsInv(s2, run[2]);
    ReadsAreKnown(s3, rd);
    assert AppliesSnapshot(s3.store.tables, rd.target, c, apiNow);
    ReleasesDisplaced(s3, rd, a, c, apiNow);
    StepKeepsInv(s3, run[3]);
    var s4 := Next(s3, run[3]);
    AdmittedAreDrawn(s4, a);
    assert Enabled(s4, run[4]);
  }

  lemma ReadsAreKnown(s: System, rd: Read)
    requires Inv(s) && rd in s.taken
    ensures ReadInv(s.offboards, s.clock, rd)
  {
    hide ReadInv, AllSecured, UndrawnUnknown;
  }

  lemma AdmittedAreDrawn(s: System, a: Obligation)
    requires Inv(s) && a in s.admitted
    ensures forall n: nat | n >= s.store.tables.issued :: a.offboardId != IssuedOffboardId(n)
  {
    hide AutomationInv, AllSecured, IssuedOffboardId;
  }

  // ---------- Both hazards from an empty ledger ----------

  const NO_TABLES := Tables(map[], map[], map[], 0)

  function Fresh(users: map<string, User>, environments: map<string, Environment>,
                 grants: map<(string, string), Grant>): System
  {
    System(Store(NO_TABLES, users, environments, grants, map[], map[]), map[], {}, 0, {}, {})
  }

  lemma FreshIsStart(users: map<string, User>, environments: map<string, Environment>,
                     grants: map<(string, string), Grant>)
    ensures Inv(Fresh(users, environments, grants))
  {
    hide Inv, IssuedOffboardId;
    Start(Fresh(users, environments, grants));
  }

  // One customer who owns one environment.
  function OneCustomer(): System {
    Fresh(map["u" := User("u", true)], map["e" := Environment(None, Some(WECHAT))],
          map[("u", "e") := Grant(None, Some(WECHAT), None, 0)])
  }

  const UNBIND := BeginOffboard("u", "e", true, Some(Dev), 0)
  const UNBOUND := Admission("e", "u", EnvironmentUnbind, Some("client:" + "u"), false)

  function OfCustomer(): Obligation { Obligation(IssuedOffboardId(0), "e", Dev) }

  lemma CustomerUnbinds()
    ensures var s := Next(OneCustomer(), Operate(UNBIND));
      && s.store.tables == NO_TABLES.(holds := map["e" := NewHold(NO_TABLES, UNBOUND, Dev, 0)], issued := 1)
      && s.admitted == {OfCustomer()} && s.displaced == {}
      && s.offboards == map[] && s.taken == {} && s.clock == 0
  {
    hide EnqueueAll, AuditGrants, SelfProvisioned, IssuedOffboardId, IssuedRevocationId, Deliver;
    var s := OneCustomer();
    assert Trim("e") == "e";
    EnqueueSingle(s.store.tables, UNBOUND, Some(Dev), 0);
    assert BeginOffboardTx(s.store, "u", "e", true, Some(Dev), 0).Done?;
    var next := AfterStore(s.store, Perform(s.store, UNBIND));
    assert next.tables.holds == map["e" := NewHold(NO_TABLES, UNBOUND, Dev, 0)];
    assert NewlyAdmitted(Holds(s), next.tables.holds) == {OfCustomer()};
  }

  // Snapshots that pass every check of a ledger without receipts.
  function Empty(commandId: string, observedAt: int): Command { Reconcile(commandId, true, observedAt, []) }

  lemma ShortIdIsValid(s: string)
    requires |s| == 1 && !IsSpace(s[0]) && s[0] != '\0'
    ensures ValidId(s) && !HasNul(s)
  {
    assert s[0] in s;
  }

  lemma EmptySnapshotApplies(t: Tables, target: Target, c: Command, now: int)
    requires c.Reconcile? && c.rows == [] && c.complete && ValidId(c.commandId) && !HasNul(c.commandId)
    requires 0 <= c.observedAt <= MAX_DATE_MS
    requires AllAssigned(t.holds) && (target, c.commandId) !in t.commands && Advances(t, target, c.observedAt)
    ensures AppliesSnapshot(t, target, c, now)
  {
    hide PayloadHash, SnapshotDigest, ValidId;
    AppliedIff(t, target, c, now);
  }

  function Unbinding(): seq<SystemEvent> {
    [Operate(UNBIND), Create("x", "e", Dev, 1)]
  }

  lemma UnbindingRuns()
    ensures Possible(OneCustomer(), Unbinding())
    ensures var s := Reach(OneCustomer(), Unbinding());
      && s.store.tables == NO_TABLES.(holds := map["e" := NewHold(NO_TABLES, UNBOUND, Dev, 0)], issued := 1)
      && s.admitted == {OfCustomer()} && s.displaced == {}
      && s.offboards == map["x" := Offboard("e", Dev, 1, false)] && s.taken == {} && s.clock == 1
  {
    hide Deliver, Perform, Reach, Possible;
    var s := OneCustomer();
    CustomerUnbinds();
    NoSteps(s);
    RunThen(s, [], Unbinding()[0]);
    RunThen(s, [Unbinding()[0]], Unbinding()[1]);
    assert [] + [Unbinding()[0]] == [Unbinding()[0]] && [Unbinding()[0]] + [Unbinding()[1]] == Unbinding();
    forall n: nat ensures IssuedOffboardId(n) != "x" && IssuedOffboardId(n)[0] == 'o' {}
  }

  function DisplacedRun(): seq<SystemEvent> {
    Unbinding()
    + Displacement(IssuedRevocationId(0), "x", 2, Read(Dev, 1, [], 1000), Empty("c", 1), 0, OfCustomer(), 1001)
  }

  // A whole run from an empty ledger at whose end the record of a customer's unbinding
  // is live and its environment is not held.
  lemma DisplacementHappens()
    ensures Inv(OneCustomer()) && Possible(OneCustomer(), DisplacedRun())
    ensures Ongoing(Reach(OneCustomer(), DisplacedRun()), OfCustomer())
    ensures OfCustomer().envKey !in Holds(Reach(OneCustomer(), DisplacedRun()))
  {
    hide Deliver, Perform, Reach, Possible, AppliesSnapshot, Inv, IssuedRevocationId, IssuedOffboardId;
    var s0, a, rd, c := OneCustomer(), OfCustomer(), Read(Dev, 1, [], 1000), Empty("c", 1);
    FreshIsStart(s0.store.users, s0.store.environments, s0.store.grants);
    UnbindingRuns();
    RunKeepsInv(s0, Unbinding());
    var s := Reach(s0, Unbinding());
    assert a.offboardId != "x" by { OffboardIdsBegin(0); }
    var s2 := Next(Next(s, Direct(IssuedRevocationId(0), "x", 2)), Purge("x"));
    ShortIdIsValid("c");
    EmptySnapshotApplies(s2.store.tables, Dev, c, 0);
    DisplacedHoldIsLost(s, rd, a, IssuedRevocationId(0), "x", 2, c, 0, 1001);
    RunInTurn(s0, Unbinding(), Displacement(IssuedRevocationId(0), "x", 2, rd, c, 0, a, 1001));
  }

  lemma OffboardIdsBegin(n: nat)
    ensures IssuedOffboardId(n) != "x"
  {
    assert IssuedOffboardId(n)[0] == 'o';
  }

  // A read before the record exists, and one after, adopted while this service's clock
  // is still behind the first read's stamp.
  const EARLY := Read(Dev, 5, [], 6000)
  const ROW := SnapshotRow("x", "e", AdminRevoked, 0)
  const LATER := Read(Dev, 8, [ROW], 8000)

  const ADOPTING := Reconcile("c", true, 8, [ROW])

  function Reads(): seq<SystemEvent> { [TakeRead(EARLY), Create("x", "e", Dev, 7000), TakeRead(LATER)] }

  function LaggingRun(): seq<SystemEvent> { Reads() + [Send(Dev, ADOPTING, 1000, {})] }

  function Nobody(): System { Fresh(map[], map[], map[]) }

  function AfterReads(): System {
    Nobody().(offboards := map["x" := Offboard("e", Dev, 7000, false)], taken := {EARLY, LATER}, clock := 8000)
  }

  lemma ReadsRun()
    ensures Possible(Nobody(), Reads()) && Reach(Nobody(), Reads()) == AfterReads()
  {
    hide Deliver, Perform, Reach, Possible, IssuedOffboardId;
    var s0 := Nobody();
    ReachThree(s0, Reads()[0], Reads()[1], Reads()[2]);
    assert Reads() == [Reads()[0], Reads()[1], Reads()[2]];
    forall n: nat ensures IssuedOffboardId(n) != "x" { OffboardIdsBegin(n); }
    assert ROW in [ROW] && ROW.envKey in EnvKeys([ROW]);
  }

  lemma LaterSnapshotApplies()
    ensures var o := ReconcileTx(NO_TABLES, Dev, ADOPTING, 1000);
      && o.Committed? && o.tables.holds == map["e" := AdoptedHold(ROW, Dev, 1000)]
      && Dev in o.tables.snapshots && o.tables.snapshots[Dev].observedAt == 8
      && (Dev, "d") !in o.tables.commands && o.tables.issued == 0
  {
    hide PayloadHash, SnapshotDigest, AdoptedRevocationId, ValidId;
    ShortIdIsValid("c");
    ShortIdIsValid("x");
    ShortIdIsValid("e");
    assert [ROW][1..] == [];
    var h := AdoptedHold(ROW, Dev, 1000);
    assert AdoptMissing(map[], [ROW], Dev, 1000) == Some(map["e" := h]);
  }

  lemma LaggingRuns()
    ensures Possible(Nobody(), LaggingRun())
    ensures var s := Reach(Nobody(), LaggingRun());
      && Holds(s) == map["e" := AdoptedHold(ROW, Dev, 1000)]
      && Dev in s.store.tables.snapshots && s.store.tables.snapshots[Dev].observedAt == 8
      && (Dev, "d") !in s.store.tables.commands
      && s.offboards == AfterReads().offboards && s.taken == AfterReads().taken
  {
    hide Perform, Reach, Possible, ReconcileTx, ClaimTx, RecordTx, NewlyAdmitted, AdoptedHold;
    ReadsRun();
    RunThen(Nobody(), Reads(), Send(Dev, ADOPTING, 1000, {}));
    LaterSnapshotApplies();
    assert LATER in AfterReads().taken;
  }

  // A whole run to a state in which only the rejection of stale snapshots keeps a live
  // record's hold: applied all the same, the early read would release it.
  lemma StaleGuardIsNeeded()
    ensures var s := Reach(Nobody(), LaggingRun());
      var c := Empty("d", 5);
      && Possible(Nobody(), LaggingRun()) && Inv(s)
      && "x" in s.offboards && !s.offboards["x"].purged && s.offboards["x"].envKey in Holds(s)
      && ApplySnapshot(s.store.tables, Dev, c, 0).Committed?
      && s.offboards["x"].envKey !in ApplySnapshot(s.store.tables, Dev, c, 0).tables.holds
      && s.offboards["x"].envKey in After(s.store.tables, ReconcileTx(s.store.tables, Dev, c, 0)).holds
  {
    hide Reach, Possible, PayloadHash, SnapshotDigest, AdoptedRevocationId, ReconcileTx, ValidId, IssuedOffboardId, Inv;
    LaggingRuns();
    FreshIsStart(map[], map[], map[]);
    RunKeepsInv(Nobody(), LaggingRun());
    var s := Reach(Nobody(), LaggingRun());
    ShortIdIsValid("d");
    assert Covered(s, "x");
    StaleSnapshotIsRefused(s, EARLY, Empty("d", 5), 0, "x");
  }
}
