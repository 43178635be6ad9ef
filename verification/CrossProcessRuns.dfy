// Whole runs of the two processes: how long an admitted offboard keeps its hold, and
// what becomes of owners meanwhile.

module CrossProcessRuns {
  import opened Wrappers
  import opened Commands
  import opened Admissions
  import opened AdmissionLaws
  import opened Ownership
  import opened OwnershipLaws
  import opened CrossProcess

  // ---------- Runs ----------

  ghost predicate Possible(s: System, evs: seq<SystemEvent>)
    decreases |evs|
  {
    evs == [] || (Enabled(s, evs[0]) && Possible(Next(s, evs[0]), evs[1..]))
  }

  ghost function Reach(s: System, evs: seq<SystemEvent>): System
    decreases |evs|
  {
    if evs == [] then s else Reach(Next(s, evs[0]), evs[1..])
  }

  lemma {:induction false} RunKeepsInv(s: System, evs: seq<SystemEvent>)
    requires Inv(s) && Possible(s, evs)
    ensures Inv(Reach(s, evs))
    decreases |evs|
  {
    hide Inv, Next, Enabled;
    if evs != [] {
      StepKeepsInv(s, evs[0]);
      RunKeepsInv(Next(s, evs[0]), evs[1..]);
    }
  }

  lemma {:induction false} RunInTurn(s: System, evs: seq<SystemEvent>, more: seq<SystemEvent>)
    ensures Reach(s, evs + more) == Reach(Reach(s, evs), more)
    ensures Possible(s, evs + more) <==> Possible(s, evs) && Possible(Reach(s, evs), more)
    decreases |evs|
  {
    hide Next, Enabled;
    if evs == [] {
      assert [] + more == more;
    } else {
      assert (evs + more)[0] == evs[0] && (evs + more)[1..] == evs[1..] + more;
      RunInTurn(Next(s, evs[0]), evs[1..], more);
    }
  }

  lemma RunThen(s: System, evs: seq<SystemEvent>, ev: SystemEvent)
    ensures Reach(s, evs + [ev]) == Next(Reach(s, evs), ev)
    ensures Possible(s, evs + [ev]) <==> Possible(s, evs) && Enabled(Reach(s, evs), ev)
  {
    hide Next, Enabled;
    RunInTurn(s, evs, [ev]);
    assert [ev][1..] == [] && Reach(Next(Reach(s, evs), ev), []) == Next(Reach(s, evs), ev);
  }

  // ---------- The cleanup of an environment keeps owners out ----------

  // An offboard this service has taken a hold for, and the hold not given to another.
  predicate Live(s: System, a: Obligation) {
    a in s.admitted && a !in s.displaced
  }

  predicate Finished(s: System, a: Obligation) {
    a.offboardId in s.offboards && s.offboards[a.offboardId].purged
  }

  // No step of the direct path meets the row of the offboard before its record exists.
  ghost predicate NeverDisplaced(s: System, evs: seq<SystemEvent>, a: Obligation)
    decreases |evs|
  {
    evs == [] || (!Displaces(s, evs[0], a) && NeverDisplaced(Next(s, evs[0]), evs[1..], a))
  }

  // The environment has no grants but ones it had in `before`.
  predicate NoNewOwner(before: Store, after: Store, envKey: string) {
    forall k | k in after.grants && k.1 == envKey :: k in before.grants && after.grants[k] == before.grants[k]
  }

  lemma LiveIsHeld(s: System, a: Obligation)
    requires Inv(s) && Live(s, a) && !Finished(s, a)
    ensures a.envKey in Holds(s)
    ensures a.offboardId !in s.offboards ==> Waiting(s, a)
  {
    hide AutomationInv, UndrawnUnknown, ReadsAreLater;
    assert Secured(s, a);
  }

  // An offboard stays live unless it is displaced, and a purge is final.
  lemma StepStaysLive(s: System, ev: SystemEvent, a: Obligation)
    requires Live(s, a) && !Displaces(s, ev, a)
    ensures Live(Next(s, ev), a)
    ensures Finished(s, a) && Enabled(s, ev) ==> Finished(Next(s, ev), a)
    ensures a.offboardId in s.offboards ==> a.offboardId in Next(s, ev).offboards
  {
    hide Deliver, Perform, Faithful, NewlyAdmitted, IssuedOffboardId, DirectlyAdmitted;
  }

  lemma StepGivesNoOwner(s: System, ev: SystemEvent, envKey: string)
    requires envKey in Holds(s)
    ensures NoNewOwner(s.store, Next(s, ev).store, envKey)
  {
    hide Perform, Deliver, OneOwner, NeedsCleanup, Audited, Removed, AddsPendingHolds, NewlyAdmitted;
    if ev.Operate? {
      OperationLaws(s.store, ev.op);
    }
  }

  lemma {:induction false} LiveThroughout(s: System, evs: seq<SystemEvent>, a: Obligation)
    requires Inv(s) && Possible(s, evs) && Live(s, a) && NeverDisplaced(s, evs, a)
    ensures Live(Reach(s, evs), a)
    ensures Finished(s, a) ==> Finished(Reach(s, evs), a)
    ensures !Finished(Reach(s, evs), a) ==> NoNewOwner(s.store, Reach(s, evs).store, a.envKey)
    decreases |evs|
  {
    hide Inv, Next, Enabled, Displaces, Live, Finished;
    if evs != [] {
      var next := Next(s, evs[0]);
      StepKeepsInv(s, evs[0]);
      StepStaysLive(s, evs[0], a);
      LiveThroughout(next, evs[1..], a);
      if !Finished(Reach(s, evs), a) {
        LiveIsHeld(s, a);
        StepGivesNoOwner(s, evs[0], a.envKey);
      }
    }
  }

  // However snapshots, claims, receipts, admissions, creations, purges and store calls
  // are ordered, delayed or repeated: from its admission on and until its record is
  // purged, an offboard that is not displaced keeps its environment held, and the
  // environment is given to nobody.
  lemma CleanupKeepsOwnersOut(s: System, evs: seq<SystemEvent>, a: Obligation)
    requires Inv(s) && Possible(s, evs)
    requires Live(s, a) && NeverDisplaced(s, evs, a) && !Finished(Reach(s, evs), a)
    ensures a.envKey in Holds(Reach(s, evs))
    ensures NoNewOwner(s.store, Reach(s, evs).store, a.envKey)
  {
    hide Inv, Reach, Possible, NoNewOwner, NeverDisplaced, Live, Finished;
    LiveThroughout(s, evs, a);
    RunKeepsInv(s, evs);
    LiveIsHeld(Reach(s, evs), a);
  }

  // Nor can a call assign it.
  lemma CleanupRefusesAssignment(s: System, evs: seq<SystemEvent>, a: Obligation, userId: string, items: seq<string>,
                                 actor: Option<string>, target: Option<Target>, now: int)
    requires Inv(s) && Possible(s, evs)
    requires Live(s, a) && NeverDisplaced(s, evs, a) && !Finished(Reach(s, evs), a)
    requires a.envKey in CleanKeys(items)
    ensures SetScopeTx(Reach(s, evs).store, userId, items, actor, target, now).Refused?
  {
    hide Inv, Reach, Possible, SetScopeTx, CleanKeys, NoNewOwner, EnqueueAll, Dropped, WithGrants, AuditGrants, EnvsOf,
         NeverDisplaced, Live, Finished;
    CleanupKeepsOwnersOut(s, evs, a);
    SetScopeOutcome(Reach(s, evs).store, userId, items, actor, target, now);
  }

  // Until its record is created, the hold is pending and the offboard's own.
  lemma WaitsForCreation(s: System, evs: seq<SystemEvent>, a: Obligation)
    requires Inv(s) && Possible(s, evs) && Live(s, a) && NeverDisplaced(s, evs, a)
    requires a.offboardId !in Reach(s, evs).offboards
    ensures Waiting(Reach(s, evs), a)
  {
    hide Inv, Reach, Possible, NeverDisplaced, Live, Waiting;
    LiveThroughout(s, evs, a);
    RunKeepsInv(s, evs);
    LiveIsHeld(Reach(s, evs), a);
  }

  // Once its record is created, nothing displaces an offboard.
  lemma {:induction false} CreatedIsNeverDisplaced(s: System, evs: seq<SystemEvent>, a: Obligation)
    requires a.offboardId in s.offboards
    ensures NeverDisplaced(s, evs, a)
    decreases |evs|
  {
    hide Deliver, Perform;
    if evs != [] { CreatedIsNeverDisplaced(Next(s, evs[0]), evs[1..], a); }
  }

  // Over any run: an environment never has two owners, and a grant is still there as it
  // was or in the audit for good.
  predicate Accounted(before: Store, after: Store) {
    && (forall a | a in before.audit :: a in after.audit && after.audit[a] == before.audit[a])
    && (forall k | k in before.grants && Removed(before, after, k) :: RowFor(before.grants[k], k, after))
  }

  predicate RowFor(g: Grant, k: (string, string), s: Store) {
    exists a | a in s.audit :: a.userId == k.0 && a.envKey == k.1 && a.assignedAt == g.assignedAt
  }

  lemma AuditedHasRow(s: Store, s': Store, k: (string, string))
    requires k in s.grants && Audited(s, s', k)
    ensures RowFor(s.grants[k], k, s')
  {
    var reason :| AuditKey(k.0, k.1, s.grants[k].assignedAt, reason) in s'.audit;
    assert AuditKey(k.0, k.1, s.grants[k].assignedAt, reason).userId == k.0;
  }

  lemma StepIsAccounted(s: System, ev: SystemEvent)
    ensures Accounted(s.store, Next(s, ev).store)
    ensures OneOwner(s.store.grants) ==> OneOwner(Next(s, ev).store.grants)
  {
    hide Perform, Deliver, OneOwner, NeedsCleanup, Audited, RowFor, AddsPendingHolds, NewlyAdmitted;
    if ev.Operate? {
      OperationLaws(s.store, ev.op);
      forall k | k in s.store.grants && Removed(s.store, Next(s, ev).store, k)
        ensures RowFor(s.store.grants[k], k, Next(s, ev).store)
      {
        AuditedHasRow(s.store, Next(s, ev).store, k);
      }
    }
  }

  lemma RowsStay(s: Store, s': Store, g: Grant, k: (string, string))
    requires RowFor(g, k, s) && forall a | a in s.audit :: a in s'.audit
    ensures RowFor(g, k, s')
  {
  }

  lemma AccountedInTurn(s: Store, next: Store, s': Store)
    requires Accounted(s, next) && Accounted(next, s')
    ensures Accounted(s, s')
  {
    hide RowFor;
    forall k | k in s.grants && Removed(s, s', k) ensures RowFor(s.grants[k], k, s') {
      if Removed(s, next, k) {
        RowsStay(next, s', s.grants[k], k);
      } else {
        assert Removed(next, s', k);
      }
    }
  }

  lemma {:induction false} OwnershipThroughout(s: System, evs: seq<SystemEvent>)
    ensures Accounted(s.store, Reach(s, evs).store)
    ensures OneOwner(s.store.grants) ==> OneOwner(Reach(s, evs).store.grants)
    decreases |evs|
  {
    hide Next, Accounted, OneOwner;
    if evs == [] {
      NothingIsAccounted(s.store);
    } else {
      var next := Next(s, evs[0]);
      StepIsAccounted(s, evs[0]);
      OwnershipThroughout(next, evs[1..]);
      AccountedInTurn(s.store, next.store, Reach(next, evs[1..]).store);
    }
  }

  lemma NothingIsAccounted(s: Store)
    ensures Accounted(s, s)
  {
  }

  // ---------- Revocations get holds of their own ----------

  predicate OwnedAreUnheld(s: Store) {
    forall k | k in s.grants :: k.1 !in s.tables.holds
  }

  // A snapshot that adopts a record for an environment somebody owns.
  ghost predicate AdoptsOwned(s: System, ev: SystemEvent) {
    && ev.Send? && ev.command.Reconcile?
    && exists k | k in s.store.grants :: k.1 in Holds(Next(s, ev)) && k.1 !in Holds(s)
  }

  ghost predicate NeverAdoptsOwned(s: System, evs: seq<SystemEvent>)
    decreases |evs|
  {
    evs == [] || (!AdoptsOwned(s, evs[0]) && NeverAdoptsOwned(Next(s, evs[0]), evs[1..]))
  }

  lemma StepKeepsOwnedUnheld(s: System, ev: SystemEvent)
    requires OneOwner(s.store.grants) && OwnedAreUnheld(s.store) && !AdoptsOwned(s, ev)
    ensures OwnedAreUnheld(Next(s, ev).store)
  {
    hide Perform, ReconcileTx, ClaimTx, RecordTx, OneOwner, NeedsCleanup, Audited, Removed, AddsPendingHolds,
         NewlyAdmitted, PayloadHash, Valid;
    match ev
    case Send(target, c, now, locked) =>
      match c {
        case Reconcile(_, _, _, _) =>
        case Claim(_, _, _, _, _) => ClaimShape(s.store.tables, target, c, now, locked);
        case Record(_, _, _, _, _) => RecordShape(s.store.tables, target, c);
      }
    case Operate(op) => OperationLaws(s.store, op);
    case _ =>
  }

  lemma {:induction false} OwnedStayUnheld(s: System, evs: seq<SystemEvent>)
    requires OneOwner(s.store.grants) && OwnedAreUnheld(s.store) && NeverAdoptsOwned(s, evs)
    ensures OwnedAreUnheld(Reach(s, evs).store)
    decreases |evs|
  {
    hide Next, OneOwner, OwnedAreUnheld, AdoptsOwned;
    if evs != [] {
      StepKeepsOwnedUnheld(s, evs[0]);
      StepIsAccounted(s, evs[0]);
      OwnedStayUnheld(Next(s, evs[0]), evs[1..]);
    }
  }

  // As long as no snapshot adopts a record for an owned environment, every revocation
  // that needs cleanup gets a pending hold under an offboard of its own.
  lemma RevocationsGetOwnHolds(s: System, evs: seq<SystemEvent>, op: StoreOp, k: (string, string))
    requires OneOwner(s.store.grants) && OwnedAreUnheld(s.store) && NeverAdoptsOwned(s, evs)
    requires var store := Reach(s, evs).store;
      k in store.grants && NeedsCleanup(store, k.0, k.1) && k !in AfterStore(store, Perform(store, op)).grants
    ensures var store := Reach(s, evs).store;
      var t, t' := store.tables, AfterStore(store, Perform(store, op)).tables;
      k.1 in t'.holds && FreshlyAdmitted(t'.holds[k.1], t.issued, t'.issued)
  {
    hide Reach, NeverAdoptsOwned, Perform, OneOwner, NeedsCleanup, FreshlyAdmitted;
    OwnedStayUnheld(s, evs);
    RevocationHolds(Reach(s, evs).store, op, k);
  }
}
