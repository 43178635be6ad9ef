// Claims over whole runs: leases exclude each other, revisions only rise, a
// superseded token never applies again, and a hold is materialised once.

module ClaimRuns {
  import opened Wrappers
  import opened Text
  import opened Commands
  import opened Admissions
  import opened AdmissionLaws

  // What one step may do to the hold of an environment, and to a new one.

  predicate Evolved(h: Hold, g: Hold) {
    && g.revocationId == h.revocationId
    && g.revision >= h.revision
    && (h.materializedAt.Some? ==> g.materializedAt.Some?)
  }

  ghost predicate Effect(t: Tables, t': Tables) {
    && t'.issued >= t.issued
    && forall e | e in t'.holds ::
         if e in t.holds then Evolved(t.holds[e], t'.holds[e])
         else
           || t'.holds[e].materializedAt.Some?
           || (t'.holds[e].revocationId == IssuedRevocationId(t.issued) && t'.issued > t.issued)
  }

  lemma ReconcileEffect(t: Tables, target: Target, c: Command, now: int)
    requires c.Reconcile?
    ensures Effect(t, After(t, ReconcileTx(t, target, c, now)))
  {
    hide Valid, PayloadHash, SnapshotDigest, AdoptedRevocationId, IssuedRevocationId, ReconcileTx, AppliesSnapshot,
         PrimaryKey, Releasable, Release, AdoptMissing, Count;
    if AppliesSnapshot(t, target, c, now) {
      AppliedSnapshotTables(t, target, c, now);
      AppliedSnapshotHolds(t, target, c, now);
      var h := ReconcileTx(t, target, c, now).tables.holds;
      assert forall e | e in h && e !in t.holds :: e in AdoptedKeys(t.holds, c.rows);
    } else {
      OtherReconcilesAreInert(t, target, c, now);
    }
  }

  lemma ClaimKeepsRows(t: Tables, target: Target, c: Command, now: int, locked: set<string>)
    requires c.Claim?
    ensures Effect(t, After(t, ClaimTx(t, target, c, now, locked)))
  {
    hide Valid, PayloadHash, IssuedRevocationId, ClaimToken, ClaimTx;
    ClaimShape(t, target, c, now, locked);
  }

  lemma RecordKeepsRows(t: Tables, target: Target, c: Command)
    requires c.Record?
    ensures Effect(t, After(t, RecordTx(t, target, c)))
  {
    hide Valid, PayloadHash, IssuedRevocationId, RecordTx;
    RecordShape(t, target, c);
  }

  lemma StepEffect(t: Tables, ev: Event)
    ensures Effect(t, Step(t, ev))
  {
    hide Valid, PayloadHash, IssuedRevocationId, IssuedOffboardId, ReconcileTx, ClaimTx, RecordTx;
    match ev
    case Delivered(target, c, now, locked) =>
      match c {
        case Reconcile(_, _, _, _) => ReconcileEffect(t, target, c, now);
        case Claim(_, _, _, _, _) => ClaimKeepsRows(t, target, c, now, locked);
        case Record(_, _, _, _, _) => RecordKeepsRows(t, target, c);
      }
    case Admitted(_, _, _) =>
    case MaterializedDirectly(_, _, _) =>
  }

  // ---------- Superseded revisions ----------

  // No pending row with this id is at revision k or below, and none ever will be.
  ghost predicate Superseded(t: Tables, revocationId: string, k: int) {
    && Drawn(revocationId, t.issued)
    && forall e | e in t.holds && t.holds[e].revocationId == revocationId ::
         t.holds[e].materializedAt.Some? || t.holds[e].revision > k
  }

  lemma SupersededStep(t: Tables, ev: Event, revocationId: string, k: int)
    requires Superseded(t, revocationId, k)
    ensures Superseded(Step(t, ev), revocationId, k)
  {
    hide Step, IssuedRevocationId;
    StepEffect(t, ev);
  }

  lemma {:induction false} SupersededRun(t: Tables, evs: seq<Event>, revocationId: string, k: int)
    requires Superseded(t, revocationId, k)
    ensures Superseded(Run(t, evs), revocationId, k)
    decreases |evs|
  {
    hide Step, Superseded;
    if evs != [] {
      SupersededStep(t, evs[0], revocationId, k);
      SupersededRun(Step(t, evs[0]), evs[1..], revocationId, k);
    }
  }

  // A fresh receipt that fails the compare-and-swap is answered stale and moves no hold.
  predicate AnsweredStale(t: Tables, o: Outcome) {
    && o.Committed?
    && o.reply.receipt.ResultReceipt? && o.reply.receipt.outcome == Stale
    && o.tables.holds == t.holds
  }

  lemma SupersededIsStale(t: Tables, target: Target, r: Command)
    requires r.Record? && Valid(r) && ReadCommand(t, target, r).Missing?
    requires Superseded(t, r.revocationId, r.expectedRevision)
    ensures AnsweredStale(t, RecordTx(t, target, r))
  {
    hide Valid, PayloadHash, IssuedRevocationId;
  }

  // ---------- Claims ----------

  // What a delivery hands out; a repeated or refused one hands out nothing new.
  function Granted(t: Tables, target: Target, c: Command, now: int, locked: set<string>): seq<Candidate>
    requires c.Claim?
  {
    if Valid(c) && AllAssigned(t.holds) && ReadCommand(t, target, c).Missing? && !HasNul(c.workerId) then
      var keys := Picks(t.holds, DueKeys(t.holds, target, now, locked), c.limit);
      assert forall k | k in keys :: k in Members(keys);
      Candidates(ClaimAll(t.holds, Members(keys), c, now), keys)
    else []
  }

  lemma GrantedIsReceipt(t: Tables, target: Target, c: Command, now: int, locked: set<string>)
    requires c.Claim? && Valid(c) && AllAssigned(t.holds) && ReadCommand(t, target, c).Missing? && !HasNul(c.workerId)
    ensures var o := ClaimTx(t, target, c, now, locked);
      o.Committed? && o.reply == Reply(false, ClaimReceipt(Granted(t, target, c, now, locked)))
  {
    hide Valid, PayloadHash, ClaimToken;
  }

  lemma GrantedHold(t: Tables, target: Target, c: Command, now: int, locked: set<string>, cand: Candidate)
    requires c.Claim? && cand in Granted(t, target, c, now, locked)
    ensures cand.envKey in t.holds && Due(t.holds[cand.envKey], target, now) && cand.envKey !in locked
    ensures var t' := After(t, ClaimTx(t, target, c, now, locked));
      && cand.envKey in t'.holds
      && t'.holds[cand.envKey] == ClaimedHold(t.holds[cand.envKey], c, now)
      && cand == CandidateOf(t'.holds[cand.envKey], cand.envKey)
    ensures var before, after := t.holds[cand.envKey], After(t, ClaimTx(t, target, c, now, locked)).holds[cand.envKey];
      && cand.revision == after.revision == before.revision + 1
      && after.lease == Some(Lease(cand.claimToken, c.workerId, now + LEASE_MICROS))
      && cand.revocationId == after.revocationId == before.revocationId
      && cand.offboardId == after.offboardId == before.offboardId
      && cand.unboundTerminalAllowed == before.unboundTerminalOk && cand.reason == before.reason
  {
    hide Valid, PayloadHash, ClaimToken;
    var keys := Picks(t.holds, DueKeys(t.holds, target, now, locked), c.limit);
    var i :| 0 <= i < |keys| && cand == Granted(t, target, c, now, locked)[i];
    assert keys[i] in Members(keys);
  }

  // The row with this id, if still pending, is leased until at least x.
  ghost predicate LeasedUntil(t: Tables, revocationId: string, x: int) {
    && Drawn(revocationId, t.issued)
    && forall e | e in t.holds && t.holds[e].revocationId == revocationId && t.holds[e].materializedAt.None? ::
         t.holds[e].lease.Some? && t.holds[e].lease.value.expiresAt >= x
  }

  ghost predicate Frees(t: Tables, ev: Event, revocationId: string) {
    && ev.Delivered? && ev.command.Record?
    && ev.command.revocationId == revocationId
    && RecordApplies(t, ev.target, ev.command)
  }

  ghost predicate NeverFreed(t: Tables, evs: seq<Event>, revocationId: string)
    decreases |evs|
  {
    evs == [] || (!Frees(t, evs[0], revocationId) && NeverFreed(Step(t, evs[0]), evs[1..], revocationId))
  }

  lemma LeasedUntilStep(t: Tables, ev: Event, revocationId: string, x: int)
    requires LeasedUntil(t, revocationId, x) && !Frees(t, ev, revocationId)
    ensures LeasedUntil(Step(t, ev), revocationId, x)
  {
    hide Valid, PayloadHash, SnapshotDigest, AdoptedRevocationId, IssuedRevocationId, IssuedOffboardId, ClaimToken,
         RecordTx;
    StepEffect(t, ev);
    match ev
    case Delivered(target, c, now, locked) =>
      match c {
        case Reconcile(_, _, _, _) =>
          if AppliesSnapshot(t, target, c, now) {
            AppliedSnapshotHolds(t, target, c, now);
          } else {
            OtherReconcilesAreInert(t, target, c, now);
          }
        case Claim(_, _, _, _, _) => ClaimShape(t, target, c, now, locked);
        case Record(_, _, _, _, _) =>
          RecordShape(t, target, c);
      }
    case Admitted(_, _, _) =>
    case MaterializedDirectly(_, _, _) =>
  }

  lemma {:induction false} LeasedUntilRun(t: Tables, evs: seq<Event>, revocationId: string, x: int)
    requires LeasedUntil(t, revocationId, x) && NeverFreed(t, evs, revocationId)
    ensures LeasedUntil(Run(t, evs), revocationId, x)
    decreases |evs|
  {
    hide Step, LeasedUntil, Frees;
    if evs != [] {
      LeasedUntilStep(t, evs[0], revocationId, x);
      LeasedUntilRun(Step(t, evs[0]), evs[1..], revocationId, x);
    }
  }

  // A grant leaves its row superseded below its revision and leased for 30 seconds.
  lemma AfterGrant(t: Tables, target: Target, c: Command, now: int, locked: set<string>, cand: Candidate)
    requires Consistent(t) && c.Claim? && cand in Granted(t, target, c, now, locked)
    ensures var t' := After(t, ClaimTx(t, target, c, now, locked));
      && Superseded(t', cand.revocationId, cand.revision - 1)
      && LeasedUntil(t', cand.revocationId, now + LEASE_MICROS)
  {
    hide Valid, PayloadHash, ClaimToken, ClaimTx, Granted, IssuedRevocationId;
    GrantedHold(t, target, c, now, locked, cand);
    ClaimShape(t, target, c, now, locked);
    assert t.holds[cand.envKey].revocationId == cand.revocationId;
  }

  // Two claims are granted the same hold only with a receipt in between or after
  // the first lease has run out, and the second one at a higher revision.
  lemma ClaimsExclude(t: Tables, first: Event, evs: seq<Event>, second: Event, a: Candidate, b: Candidate)
    requires Consistent(t)
    requires first.Delivered? && first.command.Claim?
    requires second.Delivered? && second.command.Claim?
    requires a in Granted(t, first.target, first.command, first.now, first.locked)
    requires b in Granted(Run(Step(t, first), evs), second.target, second.command, second.now, second.locked)
    requires a.revocationId == b.revocationId
    ensures b.revision > a.revision
    ensures NeverFreed(Step(t, first), evs, a.revocationId) ==> second.now >= first.now + LEASE_MICROS
  {
    hide Valid, PayloadHash, ClaimToken, ClaimTx, Granted, IssuedRevocationId, Run, NeverFreed;
    AfterGrant(t, first.target, first.command, first.now, first.locked, a);
    var s := Run(Step(t, first), evs);
    GrantedHold(s, second.target, second.command, second.now, second.locked, b);
    SupersededRun(Step(t, first), evs, a.revocationId, a.revision - 1);
    if NeverFreed(Step(t, first), evs, a.revocationId) {
      LeasedUntilRun(Step(t, first), evs, a.revocationId, first.now + LEASE_MICROS);
    }
  }

  // Once a later revision was granted, receipts for the earlier ones stay stale.
  lemma StaleAfterGrant(t: Tables, first: Event, a: Candidate, evs: seq<Event>, target: Target, r: Command)
    requires Consistent(t)
    requires first.Delivered? && first.command.Claim?
    requires a in Granted(t, first.target, first.command, first.now, first.locked)
    requires r.Record? && r.revocationId == a.revocationId && r.expectedRevision < a.revision
    requires var s := Run(Step(t, first), evs); Valid(r) && ReadCommand(s, target, r).Missing?
    ensures var s := Run(Step(t, first), evs); AnsweredStale(s, RecordTx(s, target, r))
  {
    hide Valid, PayloadHash, ClaimToken, ClaimTx, Granted, RecordTx, IssuedRevocationId, Run;
    AfterGrant(t, first.target, first.command, first.now, first.locked, a);
    SupersededRun(Step(t, first), evs, a.revocationId, a.revision - 1);
    SupersededIsStale(Run(Step(t, first), evs), target, r);
  }

  // ---------- Receipts ----------

  predicate Freed(before: Hold, after: Hold, materializedAt: Option<int>) {
    && after.materializedAt == materializedAt && after.lease.None? && after.revision == before.revision + 1
    && after.offboardId == before.offboardId && after.revocationId == before.revocationId
  }

  predicate OnlyChanged(before: map<string, Hold>, after: map<string, Hold>, e: string) {
    after.Keys == before.Keys && forall f | f in before && f != e :: after[f] == before[f]
  }

  // A receipt with the current token and revision: without a binding it frees the
  // hold, for the hold's own offboard it materialises it, for another it is a
  // collision that changes nothing.
  lemma CurrentReceiptIsAnswered(t: Tables, target: Target, c: Command, e: string)
    requires Consistent(t) && c.Record? && Valid(c) && ReadCommand(t, target, c).Missing?
    requires e in t.holds && t.holds[e].revocationId == c.revocationId && t.holds[e].target == Some(target)
    requires var h := t.holds[e];
      h.materializedAt.None? && h.lease.Some? && h.lease.value.token == c.claimToken && h.revision == c.expectedRevision
    ensures var o := RecordTx(t, target, c);
      var applied := o.Committed? && o.reply == Reply(false, ResultReceipt(Applied, c.expectedRevision + 1))
                     && OnlyChanged(t.holds, o.tables.holds, e);
      match c.result
      case BindingMissing => applied && Freed(t.holds[e], o.tables.holds[e], None)
      case Materialized(offboardId, at) =>
        if offboardId != t.holds[e].offboardId then
          && o.Committed? && o.reply == Reply(false, ResultReceipt(Collision, c.expectedRevision))
          && o.tables.holds == t.holds
        else if at > MAX_DATE_MS then o == RolledBack(DateOutOfRange)
        else applied && Freed(t.holds[e], o.tables.holds[e], Some(Micros(at)))
  {
    hide Valid, PayloadHash, IssuedRevocationId, Drawn;
    assert FindRow(t.holds, c.revocationId, target) == Some(e);
  }

  // Any other receipt is answered stale, with the revision its row is at, 0 for none.
  lemma OtherReceiptsAreStale(t: Tables, target: Target, c: Command)
    requires Consistent(t) && c.Record? && Valid(c) && ReadCommand(t, target, c).Missing?
    ensures var o := RecordTx(t, target, c);
      var stale := o.Committed? && o.tables.holds == t.holds;
      && (forall e | e in t.holds && t.holds[e].revocationId == c.revocationId && t.holds[e].target == Some(target) ::
            var h := t.holds[e];
            (h.materializedAt.Some? || h.lease.None? || h.lease.value.token != c.claimToken
             || h.revision != c.expectedRevision) ==>
              stale && o.reply == Reply(false, ResultReceipt(Stale, h.revision)))
      && ((forall e | e in t.holds ::
             t.holds[e].revocationId != c.revocationId || t.holds[e].target != Some(target)) ==>
            stale && o.reply == Reply(false, ResultReceipt(Stale, 0)))
  {
    hide Valid, PayloadHash, IssuedRevocationId, Drawn;
    forall e | e in t.holds && t.holds[e].revocationId == c.revocationId && t.holds[e].target == Some(target)
      ensures FindRow(t.holds, c.revocationId, target) == Some(e)
    {
      assert IsRow(t.holds, e, c.revocationId, target);
    }
  }

  predicate InRange(c: Command)
    requires c.Record?
  {
    && !Blank(c.commandId) && Utf16Length(c.commandId) <= 200
    && !Blank(c.revocationId) && !Blank(c.claimToken) && c.expectedRevision >= 1
    && (c.result.Materialized? ==>
          !Blank(c.result.offboardId) && 0 <= c.result.materializedAt <= 9_007_199_254_740_991)
  }

  // The receipt would materialise its hold at a time the database does not take.
  predicate TooLate(t: Tables, target: Target, c: Command)
    requires c.Record?
  {
    && c.result.Materialized? && c.result.materializedAt > 253_402_300_799_999
    && exists e | e in t.holds ::
         && t.holds[e].revocationId == c.revocationId && t.holds[e].target == Some(target)
         && t.holds[e].materializedAt.None? && t.holds[e].lease.Some? && t.holds[e].lease.value.token == c.claimToken
         && t.holds[e].revision == c.expectedRevision && t.holds[e].offboardId == c.result.offboardId
  }

  // A new receipt is accepted exactly when its parts are in range, its id is text to the
  // database, and it would not set a time that is none.
  lemma ReceiptAccepted(t: Tables, target: Target, c: Command)
    requires Consistent(t) && c.Record? && (target, c.commandId) !in t.commands
    ensures var o := RecordTx(t, target, c);
      && (o.Committed? <==> InRange(c) && '\0' !in c.commandId && !TooLate(t, target, c))
      && (o.RolledBack? ==>
            o.error == if !InRange(c) then InvalidRequest
                       else if '\0' in c.commandId then TextRejected else DateOutOfRange)
  {
    hide Blank, PayloadHash, IssuedRevocationId, Drawn;
    forall e | IsRow(t.holds, e, c.revocationId, target) ensures FindRow(t.holds, c.revocationId, target) == Some(e) {}
  }

  lemma AfterReceipt(t: Tables, target: Target, c: Command)
    requires Consistent(t) && c.Record? && RecordApplies(t, target, c)
    ensures Superseded(After(t, RecordTx(t, target, c)), c.revocationId, c.expectedRevision)
    ensures c.result.Materialized? ==>
              forall k :: Superseded(After(t, RecordTx(t, target, c)), c.revocationId, k)
  {
    hide Valid, PayloadHash, RecordTx, IssuedRevocationId;
    RecordShape(t, target, c);
  }

  // An applied receipt uses its revision up for good; a materialised one uses up
  // every revision, so over a whole run at most one is applied to a hold.
  lemma ReceiptAppliesOnce(t: Tables, first: Event, evs: seq<Event>, target: Target, r: Command)
    requires Consistent(t)
    requires first.Delivered? && first.command.Record? && RecordApplies(t, first.target, first.command)
    requires r.Record? && r.revocationId == first.command.revocationId
    requires first.command.result.Materialized? || r.expectedRevision <= first.command.expectedRevision
    requires var s := Run(Step(t, first), evs); Valid(r) && ReadCommand(s, target, r).Missing?
    ensures var s := Run(Step(t, first), evs); AnsweredStale(s, RecordTx(s, target, r))
  {
    hide Valid, PayloadHash, RecordTx, RecordApplies, IssuedRevocationId, Run;
    AfterReceipt(t, first.target, first.command);
    var k := if r.expectedRevision <= first.command.expectedRevision then first.command.expectedRevision
             else r.expectedRevision;
    SupersededRun(Step(t, first), evs, r.revocationId, k);
    SupersededIsStale(Run(Step(t, first), evs), target, r);
  }

  // ---------- Superseded tokens ----------

  // A lease's token was minted for the revision its row is at.
  ghost predicate Minted(h: Hold) {
    h.lease.Some? ==> exists commandId :: h.lease.value.token == ClaimToken(commandId, h.revocationId, h.revision)
  }

  ghost predicate TokensMatch(t: Tables) {
    forall e | e in t.holds :: Minted(t.holds[e])
  }

  // The part after the last colon of a token is its revision.
  lemma TokenRevision(c: string, i: string, r: int, c': string, i': string, r': int)
    requires ClaimToken(c, i, r) == ClaimToken(c', i', r')
    ensures r == r'
  {
    var p, p' := "c" + (c + ":" + i), "c" + (c' + ":" + i');
    var n, n' := Numeral(r), Numeral(r');
    assert ClaimToken(c, i, r) == p + ":" + n && ClaimToken(c', i', r') == p' + ":" + n';
    LastPart(p, n, p', n');
    NumeralInjective(r, r');
  }

  lemma LastPart(p: string, n: string, p': string, n': string)
    requires p + ":" + n == p' + ":" + n' && ':' !in n && ':' !in n'
    ensures n == n'
  {
    var s, s' := p + ":" + n, p' + ":" + n';
    assert forall i | |p| < i < |s| :: s[i] in n;
    assert forall i | |p'| < i < |s'| :: s'[i] in n';
    assert s[|p|] == ':' && s'[|p'|] == ':';
    assert |p| == |p'|;
    assert n == s[|p| + 1..] && n' == s'[|p'| + 1..];
  }

  lemma TokensMatchStep(t: Tables, ev: Event)
    requires TokensMatch(t)
    ensures TokensMatch(Step(t, ev))
  {
    hide Valid, PayloadHash, SnapshotDigest, AdoptedRevocationId, IssuedRevocationId, IssuedOffboardId, ClaimToken,
         ReconcileTx, ClaimTx, RecordTx, AppliesSnapshot, RecordApplies, PrimaryKey;
    match ev
    case Delivered(target, c, now, locked) =>
      match c {
        case Reconcile(_, _, _, _) =>
          if AppliesSnapshot(t, target, c, now) {
            AppliedSnapshotHolds(t, target, c, now);
            assert forall e | e in Step(t, ev).holds :: e in t.holds || e in AdoptedKeys(t.holds, c.rows);
          } else {
            OtherReconcilesAreInert(t, target, c, now);
          }
        case Claim(_, _, _, _, _) => ClaimShape(t, target, c, now, locked);
        case Record(_, _, _, _, _) => RecordShape(t, target, c);
      }
    case Admitted(_, _, _) =>
    case MaterializedDirectly(_, _, _) =>
  }

  lemma {:induction false} TokensMatchRun(t: Tables, evs: seq<Event>)
    requires TokensMatch(t)
    ensures TokensMatch(Run(t, evs))
    decreases |evs|
  {
    hide Step, TokensMatch;
    if evs != [] {
      TokensMatchStep(t, evs[0]);
      TokensMatchRun(Step(t, evs[0]), evs[1..]);
    }
  }

  lemma OldTokenIsStale(t: Tables, target: Target, r: Command, commandId: string, k: int)
    requires r.Record? && TokensMatch(t) && Superseded(t, r.revocationId, k)
    requires Valid(r) && ReadCommand(t, target, r).Missing?
    requires r.claimToken == ClaimToken(commandId, r.revocationId, k)
    ensures AnsweredStale(t, RecordTx(t, target, r))
  {
    hide Valid, PayloadHash, IssuedRevocationId, ClaimToken;
    var row := FindRow(t.holds, r.revocationId, target);
    if row.Some? && Current(t.holds[row.value], r) {
      var h := t.holds[row.value];
      assert Minted(h);
      var c :| h.lease.value.token == ClaimToken(c, h.revocationId, h.revision);
      TokenRevision(c, h.revocationId, h.revision, commandId, r.revocationId, k);
    }
  }

  // Once a hold was granted again, a receipt with the earlier token is answered stale
  // for good, whatever revision it expects.
  lemma SupersededTokenIsStale(t: Tables, first: Event, evs: seq<Event>, second: Event, more: seq<Event>,
                               a: Candidate, b: Candidate, target: Target, r: Command)
    requires Consistent(t) && TokensMatch(t)
    requires first.Delivered? && first.command.Claim?
    requires second.Delivered? && second.command.Claim?
    requires a in Granted(t, first.target, first.command, first.now, first.locked)
    requires b in Granted(Run(Step(t, first), evs), second.target, second.command, second.now, second.locked)
    requires a.revocationId == b.revocationId
    requires r.Record? && r.revocationId == a.revocationId && r.claimToken == a.claimToken
    requires var s := Run(Step(Run(Step(t, first), evs), second), more); Valid(r) && ReadCommand(s, target, r).Missing?
    ensures var s := Run(Step(Run(Step(t, first), evs), second), more); AnsweredStale(s, RecordTx(s, target, r))
  {
    hide Valid, PayloadHash, ClaimToken, ClaimTx, Granted, RecordTx, IssuedRevocationId, Run, Consistent, Superseded,
         TokensMatch;
    ClaimsExclude(t, first, evs, second, a, b);
    GrantedHold(t, first.target, first.command, first.now, first.locked, a);
    StepKeepsConsistency(t, first);
    RunKeepsConsistency(Step(t, first), evs);
    TokensMatchStep(t, first);
    TokensMatchRun(Step(t, first), evs);
    var u := Run(Step(t, first), evs);
    AfterGrant(u, second.target, second.command, second.now, second.locked, b);
    SupersededDown(Step(u, second), b.revocationId, b.revision - 1, a.revision);
    TokensMatchStep(u, second);
    TokensMatchRun(Step(u, second), more);
    SupersededRun(Step(u, second), more, a.revocationId, a.revision);
    OldTokenIsStale(Run(Step(u, second), more), target, r, first.command.commandId, a.revision);
  }

  lemma SupersededDown(t: Tables, revocationId: string, k: int, j: int)
    requires Superseded(t, revocationId, k) && j <= k
    ensures Superseded(t, revocationId, j)
  {
  }
}
