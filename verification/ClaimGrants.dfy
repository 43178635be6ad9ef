// What a claim hands out, said of the tables alone: exactly the first holds that wait
// for a worker. A hold whose worker is gone waits again when its lease is over.

module ClaimGrants {
  import opened Numbers
  import opened Wrappers
  import opened Text
  import opened Commands
  import opened Admissions
  import opened AdmissionLaws
  import opened ClaimRuns

  // Pending for the target, locked by nobody, and under no lease that still runs.
  predicate Open(holds: map<string, Hold>, target: Target, now: int, locked: set<string>, e: string) {
    && e in holds && e !in locked
    && holds[e].materializedAt.None? && holds[e].target == Some(target)
    && (holds[e].lease.Some? ==> holds[e].lease.value.expiresAt <= now)
  }

  // By the time of the request, then by key.
  predicate Earlier(holds: map<string, Hold>, f: string, e: string)
    requires f in holds && e in holds
  {
    || holds[f].requestedAt < holds[e].requestedAt
    || (holds[f].requestedAt == holds[e].requestedAt && Less(f, e))
  }

  // The open holds a claim has to take before this one.
  function Ahead(holds: map<string, Hold>, target: Target, now: int, locked: set<string>, e: string): set<string>
    requires e in holds
  {
    set f | f in holds && Open(holds, target, now, locked, f) && Earlier(holds, f, e)
  }

  // ---------- One claim ----------

  lemma DueIsOpen(holds: map<string, Hold>, target: Target, now: int, locked: set<string>)
    ensures DueKeys(holds, target, now, locked) <= holds.Keys
    ensures forall e :: e in DueKeys(holds, target, now, locked) <==> Open(holds, target, now, locked, e)
  {
  }

  lemma EarlierOneWay(holds: map<string, Hold>, e: string, f: string)
    requires e in holds && f in holds && Earlier(holds, e, f)
    ensures !Earlier(holds, f, e) && e != f
  {
    if Less(e, f) && Less(f, e) { LessTransitive(e, f, e); }
    LessIrreflexive(e);
  }

  lemma Listed(ks: seq<string>, n: nat)
    requires n <= |ks| && forall i, j | 0 <= i < j < |ks| :: ks[i] != ks[j]
    ensures |Members(ks[..n])| == n
    decreases n
  {
    if n > 0 {
      Listed(ks, n - 1);
      assert ks[..n] == ks[..n - 1] + [ks[n - 1]];
      assert Members(ks[..n]) == Members(ks[..n - 1]) + {ks[n - 1]};
    }
  }

  lemma Fewer(a: set<string>, b: set<string>)
    requires a <= b
    ensures |a| <= |b| && (|a| == |b| ==> a == b)
  {
    assert b == a + (b - a);
  }

  // A hold is among the picks exactly when fewer than `limit` come before it.
  lemma PickedByRank(holds: map<string, Hold>, due: set<string>, limit: int, e: string, ahead: set<string>)
    requires due <= holds.Keys && e in due && limit > 0
    requires forall f :: f in ahead <==> f in due && Earlier(holds, f, e)
    ensures e in Picks(holds, due, limit) <==> |ahead| < limit
  {
    hide Picks, Earlier;
    var ks := Picks(holds, due, limit);
    PicksAreFirst(holds, due, limit);
    PicksInOrder(holds, due, limit);
    Listed(ks, |ks|);
    assert ks[..|ks|] == ks;
    if e in ks {
      var i :| 0 <= i < |ks| && ks[i] == e;
      forall f | f in ahead ensures f in Members(ks[..i]) {
        EarlierOneWay(holds, f, e);
        assert f !in due - Members(ks);
        var j :| 0 <= j < |ks| && ks[j] == f;
        assert ks[..i][j] == f;
      }
      Listed(ks, i);
      Fewer(ahead, Members(ks[..i]));
    } else {
      Fewer(Members(ks), due);
      assert e in due - Members(ks);
      assert forall k | k in Members(ks) :: k in ahead;
      Fewer(Members(ks), ahead);
    }
  }

  lemma PicksInOrder(holds: map<string, Hold>, due: set<string>, limit: int)
    requires due <= holds.Keys
    ensures var ks := Picks(holds, due, limit);
      && (forall k | k in ks :: k in due)
      && (forall i, j | 0 <= i < j < |ks| :: Earlier(holds, ks[i], ks[j]) && ks[i] != ks[j])
      && (forall i, f | 0 <= i < |ks| && f in due - Members(ks) :: Earlier(holds, ks[i], f))
  {
    PicksAreFirst(holds, due, limit);
    var ks := Picks(holds, due, limit);
    assert forall k | k in ks :: k in Members(ks);
    forall i, j | 0 <= i < j < |ks| ensures ks[i] != ks[j] { EarlierOneWay(holds, ks[i], ks[j]); }
  }

  predicate InRange(c: Command)
    requires c.Claim?
  {
    && !Blank(c.commandId) && Utf16Length(c.commandId) <= 200
    && !Blank(c.workerId) && Utf16Length(c.workerId) <= 200
    && 1 <= c.limit <= 200 && c.leaseMs > 0 && 0 <= c.now <= 9_007_199_254_740_991
  }

  // A new claim is accepted exactly when its parts are in range, every hold has a target,
  // and its texts are texts to the database, which are checked in this order.
  lemma ClaimAccepted(t: Tables, target: Target, c: Command, now: int, locked: set<string>)
    requires c.Claim? && (target, c.commandId) !in t.commands
    ensures var o := ClaimTx(t, target, c, now, locked);
      var targeted := forall e | e in t.holds :: t.holds[e].target.Some?;
      && (o.Committed? <==> InRange(c) && targeted && '\0' !in c.commandId && '\0' !in c.workerId)
      && (o.RolledBack? ==>
            o.error == if !InRange(c) then InvalidRequest else if !targeted then TargetUnassigned else TextRejected)
  {
    hide Blank, PayloadHash, ClaimToken, Picks, ClaimAll, Candidates;
  }

  predicate Lists(receipt: Receipt, e: string) {
    receipt.ClaimReceipt? && exists cand | cand in receipt.candidates :: cand.envKey == e
  }

  // The row and what the worker is told of it: one revision on, leased to the worker for
  // 30 seconds, times in whole milliseconds.
  predicate HandedOut(h: Hold, g: Hold, cand: Candidate, c: Command, now: int)
    requires c.Claim?
  {
    && g == h.(revision := h.revision + 1, lease := Some(Lease(cand.claimToken, c.workerId, now + 30_000_000)))
    && cand.claimToken == ClaimToken(c.commandId, h.revocationId, h.revision + 1)
    && cand == Candidate(h.revocationId, h.offboardId, cand.envKey, h.userId, h.reason, h.revokedBy,
                         h.unboundTerminalOk, h.requestedAt / 1000, cand.claimToken, h.revision + 1,
                         (now + 30_000_000) / 1000)
  }

  // The keys of the rows an accepted claim selects.
  function Picked(t: Tables, target: Target, c: Command, now: int, locked: set<string>): seq<string>
    requires c.Claim?
  {
    DueIsOpen(t.holds, target, now, locked);
    Picks(t.holds, DueKeys(t.holds, target, now, locked), c.limit)
  }

  // What it does to them.
  lemma ClaimTakes(t: Tables, target: Target, c: Command, now: int, locked: set<string>)
    requires c.Claim? && (target, c.commandId) !in t.commands && ClaimTx(t, target, c, now, locked).Committed?
    ensures var o, keys := ClaimTx(t, target, c, now, locked), Picked(t, target, c, now, locked);
      && c.limit > 0
      && !o.reply.duplicate && o.reply.receipt.ClaimReceipt?
      && |o.reply.receipt.candidates| == |keys|
      && (forall i | 0 <= i < |keys| ::
            && keys[i] in t.holds && keys[i] in o.tables.holds
            && o.reply.receipt.candidates[i].envKey == keys[i]
            && HandedOut(t.holds[keys[i]], o.tables.holds[keys[i]], o.reply.receipt.candidates[i], c, now))
      && o.tables.holds.Keys == t.holds.Keys
      && (forall e | e in t.holds && e !in keys :: o.tables.holds[e] == t.holds[e])
      && o.tables.snapshots == t.snapshots && o.tables.issued == t.issued
  {
    hide Blank, PayloadHash, ClaimToken, Picks, DueKeys;
    DueIsOpen(t.holds, target, now, locked);
    var keys := Picked(t, target, c, now, locked);
    assert forall k | k in keys :: k in Members(keys);
    assert forall i | 0 <= i < |keys| :: keys[i] in keys;
  }

  lemma ListsPicked(r: Receipt, keys: seq<string>, e: string)
    requires r.ClaimReceipt? && |r.candidates| == |keys|
    requires forall i | 0 <= i < |keys| :: r.candidates[i].envKey == keys[i]
    ensures Lists(r, e) <==> e in keys
  {
    if e in keys {
      var i :| 0 <= i < |keys| && keys[i] == e;
      assert r.candidates[i] in r.candidates;
    }
  }

  lemma PickedIff(t: Tables, target: Target, c: Command, now: int, locked: set<string>, e: string)
    requires c.Claim? && c.limit > 0 && e in t.holds
    ensures e in Picked(t, target, c, now, locked) <==>
      Open(t.holds, target, now, locked, e) && |Ahead(t.holds, target, now, locked, e)| < c.limit
  {
    hide Picks, DueKeys, Open, Earlier;
    var due := DueKeys(t.holds, target, now, locked);
    DueIsOpen(t.holds, target, now, locked);
    PicksInOrder(t.holds, due, c.limit);
    if e in due { PickedByRank(t.holds, due, c.limit, e, Ahead(t.holds, target, now, locked, e)); }
  }

  // An accepted new claim lists a hold exactly when it is open and fewer than `limit`
  // open ones come before it; they are listed in that order, and no other row changes.
  lemma ClaimHandsOut(t: Tables, target: Target, c: Command, now: int, locked: set<string>)
    requires c.Claim? && (target, c.commandId) !in t.commands && ClaimTx(t, target, c, now, locked).Committed?
    ensures var o := ClaimTx(t, target, c, now, locked);
      var r := o.reply.receipt;
      && !o.reply.duplicate && r.ClaimReceipt?
      && (forall e | e in t.holds :: Lists(r, e) <==>
            Open(t.holds, target, now, locked, e) && |Ahead(t.holds, target, now, locked, e)| < c.limit)
      && (forall cand | cand in r.candidates ::
            && cand.envKey in t.holds && cand.envKey in o.tables.holds
            && HandedOut(t.holds[cand.envKey], o.tables.holds[cand.envKey], cand, c, now))
      && (forall i, j | 0 <= i < j < |r.candidates| ::
            Earlier(t.holds, r.candidates[i].envKey, r.candidates[j].envKey))
      && o.tables.holds.Keys == t.holds.Keys
      && (forall e | e in t.holds && !Lists(r, e) :: o.tables.holds[e] == t.holds[e])
      && o.tables.snapshots == t.snapshots && o.tables.issued == t.issued
  {
    hide Open, Earlier, HandedOut, Ahead, ClaimTx;
    var keys := Picked(t, target, c, now, locked);
    ClaimTakes(t, target, c, now, locked);
    DueIsOpen(t.holds, target, now, locked);
    PicksInOrder(t.holds, DueKeys(t.holds, target, now, locked), c.limit);
    var r := ClaimTx(t, target, c, now, locked).reply.receipt;
    forall e | e in t.holds
      ensures Lists(r, e) <==> e in keys
      ensures e in keys <==>
        Open(t.holds, target, now, locked, e) && |Ahead(t.holds, target, now, locked, e)| < c.limit
    {
      ListsPicked(r, keys, e);
      PickedIff(t, target, c, now, locked, e);
    }
  }

  // ---------- Runs ----------

  // No receipt for the hold is applied, nobody writes it directly, and whatever is
  // claimed is claimed 30 seconds before `at`.
  ghost predicate Abandoned(t: Tables, evs: seq<Event>, revocationId: string, at: int)
    decreases |evs|
  {
    evs == []
    || (&& !Frees(t, evs[0], revocationId)
        && !(evs[0].MaterializedDirectly? && evs[0].revocationId == revocationId)
        && (evs[0].Delivered? && evs[0].command.Claim? ==> evs[0].now + 30_000_000 <= at)
        && Abandoned(Step(t, evs[0]), evs[1..], revocationId, at))
  }

  // The hold a was granted from is still pending, and its lease over at `at`.
  predicate Waits(t: Tables, target: Target, a: Candidate, at: int) {
    && a.envKey in t.holds
    && var h := t.holds[a.envKey];
       && h.revocationId == a.revocationId && h.offboardId == a.offboardId && h.revision >= a.revision
       && h.materializedAt.None? && h.target == Some(target)
       && (h.lease.Some? ==> h.lease.value.expiresAt <= at)
  }

  lemma WaitsStep(t: Tables, ev: Event, target: Target, a: Candidate, at: int)
    requires Waits(t, target, a, at) && Abandoned(t, [ev], a.revocationId, at)
    ensures Waits(Step(t, ev), target, a, at)
  {
    hide Valid, PayloadHash, SnapshotDigest, AdoptedRevocationId, IssuedRevocationId, IssuedOffboardId, ClaimToken,
         ReconcileTx, ClaimTx, RecordTx, AppliesSnapshot, Current, Valid, PrimaryKey;
    match ev
    case Delivered(to, c, now, locked) =>
      match c {
        case Reconcile(_, _, _, _) =>
          if AppliesSnapshot(t, to, c, now) {
            AppliedSnapshotHolds(t, to, c, now);
            assert a.envKey in Step(t, ev).holds.Keys;
          } else {
            OtherReconcilesAreInert(t, to, c, now);
          }
        case Claim(_, _, _, _, _) => ClaimShape(t, to, c, now, locked);
        case Record(_, _, _, _, _) => RecordShape(t, to, c);
      }
    case Admitted(_, _, _) =>
    case MaterializedDirectly(_, _, _) =>
  }

  lemma {:induction false} WaitsRun(t: Tables, evs: seq<Event>, target: Target, a: Candidate, at: int)
    requires Waits(t, target, a, at) && Abandoned(t, evs, a.revocationId, at)
    ensures Waits(Run(t, evs), target, a, at)
    decreases |evs|
  {
    hide Step, Waits, Frees;
    if evs != [] {
      assert [evs[0]][1..] == [];
      WaitsStep(t, evs[0], target, a, at);
      WaitsRun(Step(t, evs[0]), evs[1..], target, a, at);
    }
  }

  ghost predicate NewClaim(t: Tables, ev: Event) {
    && ev.Delivered? && ev.command.Claim? && (ev.target, ev.command.commandId) !in t.commands
    && ClaimTx(t, ev.target, ev.command, ev.now, ev.locked).Committed?
  }

  ghost function ReceiptOf(t: Tables, ev: Event): Receipt
    requires NewClaim(t, ev)
  {
    ClaimTx(t, ev.target, ev.command, ev.now, ev.locked).reply.receipt
  }

  lemma GrantWaits(t: Tables, first: Event, a: Candidate, at: int)
    requires NewClaim(t, first) && ReceiptOf(t, first).ClaimReceipt? && a in ReceiptOf(t, first).candidates
    requires first.now + 30_000_000 <= at
    ensures Waits(Step(t, first), first.target, a, at)
    ensures a.claimToken == ClaimToken(first.command.commandId, a.revocationId, a.revision)
  {
    hide ClaimTx, PayloadHash, ClaimToken, Ahead, Earlier;
    ClaimHandsOut(t, first.target, first.command, first.now, first.locked);
    assert Lists(ReceiptOf(t, first), a.envKey);
  }

  lemma WaitingIsGranted(s: Tables, ev: Event, a: Candidate)
    requires NewClaim(s, ev) && Waits(s, ev.target, a, ev.now) && a.envKey !in ev.locked
    requires |Ahead(s.holds, ev.target, ev.now, ev.locked, a.envKey)| < ev.command.limit
    ensures ReceiptOf(s, ev).ClaimReceipt?
    ensures exists b | b in ReceiptOf(s, ev).candidates ::
              && b.envKey == a.envKey && b.revocationId == a.revocationId && b.offboardId == a.offboardId
              && b.revision > a.revision
              && b.claimToken == ClaimToken(ev.command.commandId, b.revocationId, b.revision)
  {
    hide ClaimTx, PayloadHash, ClaimToken, Ahead, Earlier;
    ClaimHandsOut(s, ev.target, ev.command, ev.now, ev.locked);
    assert Lists(ReceiptOf(s, ev), a.envKey);
  }

  // A worker that never reports back does not keep its hold: 30 seconds after the grant
  // a new claim with room for it, on a row nobody has locked, hands it out again.
  lemma AbandonedIsGrantedAgain(t: Tables, first: Event, evs: seq<Event>, second: Event, a: Candidate)
    requires NewClaim(t, first) && ReceiptOf(t, first).ClaimReceipt? && a in ReceiptOf(t, first).candidates
    requires first.now + 30_000_000 <= second.now
    requires second.Delivered? && Abandoned(Step(t, first), evs, a.revocationId, second.now)
    requires var s := Run(Step(t, first), evs);
      && NewClaim(s, second) && second.target == first.target && a.envKey !in second.locked
      && a.envKey in s.holds
      && |Ahead(s.holds, second.target, second.now, second.locked, a.envKey)| < second.command.limit
    ensures var r := ReceiptOf(Run(Step(t, first), evs), second);
      r.ClaimReceipt? && exists b | b in r.candidates ::
        && b.envKey == a.envKey && b.revocationId == a.revocationId && b.offboardId == a.offboardId
        && b.revision > a.revision && b.claimToken != a.claimToken
  {
    hide ClaimTx, PayloadHash, ClaimToken, Run, Abandoned, Ahead, Earlier, Waits, Step;
    var s := Run(Step(t, first), evs);
    GrantWaits(t, first, a, second.now);
    WaitsRun(Step(t, first), evs, first.target, a, second.now);
    WaitingIsGranted(s, second, a);
    var b :| b in ReceiptOf(s, second).candidates && b.envKey == a.envKey
      && b.revocationId == a.revocationId && b.offboardId == a.offboardId && b.revision > a.revision
      && b.claimToken == ClaimToken(second.command.commandId, b.revocationId, b.revision);
    if b.claimToken == a.claimToken {
      TokenRevision(first.command.commandId, a.revocationId, a.revision, second.command.commandId, b.revocationId,
                    b.revision);
    }
  }

  // ---------- The direct path ----------

  // It writes the record it was told of and this service's time into the row with the
  // id, and nothing else.
  lemma DirectOutcome(t: Tables, revocationId: string, offboardId: string, now: int)
    requires Consistent(t)
    ensures var t' := RecordDirectly(t, revocationId, offboardId, now);
      && t' == t.(holds := t'.holds) && t'.holds.Keys == t.holds.Keys
      && (forall e | e in t.holds && t.holds[e].revocationId == revocationId ::
            t'.holds == t.holds[e := t.holds[e].(offboardId := offboardId, materializedAt := Some(now))])
      && ((forall e | e in t.holds :: t.holds[e].revocationId != revocationId) ==> t' == t)
  {
    hide IssuedRevocationId;
    var t' := RecordDirectly(t, revocationId, offboardId, now);
    forall e | e in t.holds && t.holds[e].revocationId == revocationId
      ensures t'.holds == t.holds[e := t.holds[e].(offboardId := offboardId, materializedAt := Some(now))]
    {
    }
    if forall e | e in t.holds :: t.holds[e].revocationId != revocationId { assert t'.holds == t.holds; }
  }

  // It ends the claims: whatever happens afterwards, a receipt for the id is stale and no
  // claim hands it out.
  lemma DirectIsFinal(t: Tables, revocationId: string, offboardId: string, now: int, evs: seq<Event>, target: Target,
                      r: Command, claim: Event)
    requires Consistent(t) && exists e | e in t.holds :: t.holds[e].revocationId == revocationId
    requires var s := Run(RecordDirectly(t, revocationId, offboardId, now), evs);
      && r.Record? && r.revocationId == revocationId && Valid(r) && ReadCommand(s, target, r).Missing?
      && NewClaim(s, claim)
    ensures var s := Run(RecordDirectly(t, revocationId, offboardId, now), evs);
      && AnsweredStale(s, RecordTx(s, target, r))
      && ReceiptOf(s, claim).ClaimReceipt?
      && forall cand | cand in ReceiptOf(s, claim).candidates :: cand.revocationId != revocationId
  {
    hide ClaimTx, RecordTx, PayloadHash, ClaimToken, Run, Ahead, Earlier, IssuedRevocationId, Valid;
    var t' := RecordDirectly(t, revocationId, offboardId, now);
    var s := Run(t', evs);
    forall k ensures Superseded(s, revocationId, k) {
      assert Superseded(t', revocationId, k);
      SupersededRun(t', evs, revocationId, k);
    }
    SupersededIsStale(s, target, r);
    ClaimHandsOut(s, claim.target, claim.command, claim.now, claim.locked);
    forall cand | cand in ReceiptOf(s, claim).candidates ensures cand.revocationId != revocationId {
      assert Lists(ReceiptOf(s, claim), cand.envKey);
      var k := s.holds[cand.envKey].revision;
      assert Superseded(s, revocationId, k);
    }
  }
}
