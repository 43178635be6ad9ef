// What every store transaction keeps, and what offboarding does in one step.

module OwnershipLaws {
  import opened Wrappers
  import opened Text
  import opened Commands
  import opened Admissions
  import opened AdmissionLaws
  import opened Ownership

  // ---------- Admitting cleanups ----------

  // A pending hold of this service, under an offboard id drawn in between.
  ghost predicate FreshlyAdmitted(h: Hold, before: nat, after: nat) {
    && h.materializedAt.None? && h.target.Some?
    && exists n: nat :: before <= n < after && h.offboardId == IssuedOffboardId(n)
  }

  // Admitting adds pending holds and touches nothing else.
  ghost predicate AddsPendingHolds(t: Tables, t': Tables) {
    && t'.commands == t.commands && t'.snapshots == t.snapshots && t'.issued >= t.issued
    && t.holds.Keys <= t'.holds.Keys
    && forall e | e in t'.holds ::
         if e in t.holds then t'.holds[e] == t.holds[e]
         else FreshlyAdmitted(t'.holds[e], t.issued, t'.issued)
  }

  lemma EnqueueEffect(t: Tables, a: Admission, target: Target, now: int)
    requires Enqueue(t, a, target, now).Some?
    ensures var next := Enqueue(t, a, target, now).value;
      AddsPendingHolds(t, next) && next.holds.Keys == t.holds.Keys + {a.envKey}
  {
    hide IssuedRevocationId, IssuedOffboardId;
    var next := Enqueue(t, a, target, now).value;
    assert next.issued > t.issued ==> next.holds[a.envKey].offboardId == IssuedOffboardId(t.issued);
  }

  lemma AddsInTurn(t: Tables, next: Tables, t': Tables)
    requires AddsPendingHolds(t, next) && AddsPendingHolds(next, t')
    ensures AddsPendingHolds(t, t')
  {
    hide IssuedOffboardId;
  }

  lemma {:induction false} EnqueueAllEffect(t: Tables, admissions: seq<Admission>, target: Option<Target>, now: int)
    requires EnqueueAll(t, admissions, target, now).Some?
    ensures var t' := EnqueueAll(t, admissions, target, now).value;
      && AddsPendingHolds(t, t')
      && t'.holds.Keys == t.holds.Keys + AdmittedKeys(admissions)
    decreases |admissions|
  {
    hide Enqueue, FreshlyAdmitted;
    if admissions != [] {
      var next := Enqueue(t, admissions[0], target.value, now).value;
      EnqueueEffect(t, admissions[0], target.value, now);
      EnqueueAllEffect(next, admissions[1..], target, now);
      AddsInTurn(t, next, EnqueueAll(t, admissions, target, now).value);
      AdmittedKeysCons(admissions);
    }
  }

  predicate Carries(h: Hold, a: Admission) {
    && h.userId == Some(a.userId) && h.reason == a.reason && h.revokedBy == a.actor
    && h.unboundTerminalOk == a.unboundTerminalOk
  }

  // A new hold carries what one of the admissions says of its environment.
  lemma {:induction false} EnqueuedCarry(t: Tables, admissions: seq<Admission>, target: Option<Target>, now: int,
                                         e: string)
      returns (a: Admission)
    requires EnqueueAll(t, admissions, target, now).Some?
    requires e in EnqueueAll(t, admissions, target, now).value.holds && e !in t.holds
    ensures a in admissions && a.envKey == e && Carries(EnqueueAll(t, admissions, target, now).value.holds[e], a)
    decreases |admissions|
  {
    hide IssuedRevocationId, IssuedOffboardId;
    var next := Enqueue(t, admissions[0], target.value, now).value;
    if e in next.holds {
      a := admissions[0];
      EnqueueAllEffect(next, admissions[1..], target, now);
    } else {
      a := EnqueuedCarry(next, admissions[1..], target, now, e);
    }
  }

  function AdmittedKeys(admissions: seq<Admission>): set<string> {
    set a | a in admissions :: a.envKey
  }

  lemma AdmittedKeysCons(admissions: seq<Admission>)
    requires admissions != []
    ensures AdmittedKeys(admissions) == {admissions[0].envKey} + AdmittedKeys(admissions[1..])
  {
    assert admissions == [admissions[0]] + admissions[1..];
  }

  lemma EnqueueSingle(t: Tables, a: Admission, target: Option<Target>, now: int)
    ensures EnqueueAll(t, [a], target, now) == if target.None? then None else Enqueue(t, a, target.value, now)
  {
    hide Enqueue;
    assert [a][1..] == [];
    if target.Some? && Enqueue(t, a, target.value, now).Some? {
      assert EnqueueAll(Enqueue(t, a, target.value, now).value, [], target, now) == Enqueue(t, a, target.value, now);
    }
  }

  // The same as the admission events of the ledger runs, one by one.
  function AdmissionEvents(admissions: seq<Admission>, target: Target, now: int): seq<Event> {
    if admissions == [] then []
    else [Admitted(admissions[0], target, now)] + AdmissionEvents(admissions[1..], target, now)
  }

  lemma {:induction false} EnqueueAllIsARun(t: Tables, admissions: seq<Admission>, target: Target, now: int)
    requires EnqueueAll(t, admissions, Some(target), now).Some?
    ensures EnqueueAll(t, admissions, Some(target), now).value == Run(t, AdmissionEvents(admissions, target, now))
    decreases |admissions|
  {
    if admissions != [] {
      var next := Enqueue(t, admissions[0], target, now).value;
      var evs := AdmissionEvents(admissions, target, now);
      assert evs[0] == Admitted(admissions[0], target, now);
      assert evs[1..] == AdmissionEvents(admissions[1..], target, now);
      assert Step(t, evs[0]) == next;
      EnqueueAllIsARun(next, admissions[1..], target, now);
    }
  }

  // ---------- Granting ----------

  ghost predicate OneOwner(grants: map<(string, string), Grant>) {
    forall j, k | j in grants && k in grants && j.1 == k.1 :: j == k
  }

  // The user's grants for a set of environments, all assigned now.
  function WithGrants(s: Store, grants: map<(string, string), Grant>, userId: string, keys: set<string>,
                      actor: Option<string>, now: int): map<(string, string), Grant>
  {
    grants + (map e | e in keys && e in s.environments :: (userId, e) := NewGrant(s, e, actor, now))
  }

  predicate Insertable(holds: map<string, Hold>, grants: map<(string, string), Grant>, userId: string, envKey: string) {
    envKey !in holds && !OwnedByOther(grants, userId, envKey)
  }

  lemma EmptyGrants(s: Store, grants: map<(string, string), Grant>, userId: string, actor: Option<string>, now: int)
    ensures Members([]) == {} && WithGrants(s, grants, userId, {}, actor, now) == grants
  {
  }

  lemma WithGrantsCons(s: Store, grants: map<(string, string), Grant>, userId: string, e: string, keys: set<string>,
                       actor: Option<string>, now: int)
    requires e in s.environments
    ensures WithGrants(s, grants[(userId, e) := NewGrant(s, e, actor, now)], userId, keys, actor, now)
         == WithGrants(s, grants, userId, {e} + keys, actor, now)
  {
    hide NewGrant;
  }

  // Row by row, the insertion trips exactly when some listed environment is held
  // or belongs to another user, and otherwise adds them all.
  lemma {:induction false} InsertAllEffect(s: Store, holds: map<string, Hold>, grants: map<(string, string), Grant>,
                                           userId: string, envKeys: seq<string>, actor: Option<string>, now: int)
    requires Members(envKeys) <= s.environments.Keys
    ensures var r := InsertAll(s, holds, grants, userId, envKeys, actor, now);
      && (r.Inserted? <==> forall e | e in Members(envKeys) :: Insertable(holds, grants, userId, e))
      && (r.Inserted? ==> r.grants == WithGrants(s, grants, userId, Members(envKeys), actor, now))
    decreases |envKeys|
  {
    hide NewGrant, OwnedByOther, WithGrants, Members;
    EmptyGrants(s, grants, userId, actor, now);
    if envKeys != [] {
      var e, rest := envKeys[0], envKeys[1..];
      MembersCons(e, rest);
      assert envKeys == [e] + rest;
      assert e in Members(envKeys);
      var next := grants[(userId, e) := NewGrant(s, e, actor, now)];
      InsertAllEffect(s, holds, next, userId, rest, actor, now);
      OthersUnchanged(grants, userId, e, NewGrant(s, e, actor, now));
      WithGrantsCons(s, grants, userId, e, Members(rest), actor, now);
    }
  }

  // The first environment that trips it decides whether trigger or index did.
  lemma {:induction false} FirstTrip(s: Store, holds: map<string, Hold>, grants: map<(string, string), Grant>,
                                     userId: string, envKeys: seq<string>, actor: Option<string>, now: int, n: nat)
    requires Members(envKeys) <= s.environments.Keys && n < |envKeys|
    requires forall m | 0 <= m < n :: Insertable(holds, grants, userId, envKeys[m])
    requires !Insertable(holds, grants, userId, envKeys[n])
    ensures InsertAll(s, holds, grants, userId, envKeys, actor, now)
         == if envKeys[n] in holds then HoldTrips else IndexTrips
    decreases n
  {
    hide NewGrant, OwnedByOther;
    assert envKeys[0] in Members(envKeys) && Members(envKeys[1..]) <= Members(envKeys);
    if n > 0 {
      var next := grants[(userId, envKeys[0]) := NewGrant(s, envKeys[0], actor, now)];
      OthersUnchanged(grants, userId, envKeys[0], NewGrant(s, envKeys[0], actor, now));
      FirstTrip(s, holds, next, userId, envKeys[1..], actor, now, n - 1);
    }
  }

  lemma OthersUnchanged(grants: map<(string, string), Grant>, userId: string, envKey: string, grant: Grant)
    ensures forall e :: OwnedByOther(grants[(userId, envKey) := grant], userId, e) <==> OwnedByOther(grants, userId, e)
  {
  }

  // Replacing a user's grants by insertable ones keeps owners unique.
  lemma ReplacedGrants(s: Store, holds: map<string, Hold>, userId: string, keys: set<string>, actor: Option<string>,
                       now: int)
    requires keys <= s.environments.Keys
    requires forall e | e in keys :: Insertable(holds, WithoutUser(s.grants, userId), userId, e)
    ensures var grants := WithGrants(s, WithoutUser(s.grants, userId), userId, keys, actor, now);
      && EnvsOf(grants, userId) == keys
      && (forall k: (string, string) | k.0 != userId ::
            (k in grants <==> k in s.grants) && (k in s.grants ==> grants[k] == s.grants[k]))
      && (OneOwner(s.grants) ==> OneOwner(grants))
  {
    hide NewGrant;
    var grants := WithGrants(s, WithoutUser(s.grants, userId), userId, keys, actor, now);
    assert forall e :: (userId, e) in grants <==> e in keys;
    assert forall e :: e in EnvsOf(grants, userId) <==> (userId, e) in grants;
    if OneOwner(s.grants) {
      forall j, k | j in grants && k in grants && j.1 == k.1 ensures j == k {
        assert j.0 == userId ==> j == (userId, j.1);
        assert k.0 == userId ==> k == (userId, k.1);
        assert j.0 == userId || j in WithoutUser(s.grants, userId);
        assert k.0 == userId || k in WithoutUser(s.grants, userId);
      }
    }
  }

  // ---------- setScope ----------

  lemma {:induction false} AdmissionsForEffect(s: Store, userId: string, envKeys: seq<string>, reason: Reason,
                                               actor: Option<string>)
    ensures var r := AdmissionsFor(s, userId, envKeys, reason, actor);
      && (forall a | a in r :: a.envKey in Members(envKeys) && NeedsCleanup(s, userId, a.envKey)
                               && a == Admission(a.envKey, userId, reason, actor, false))
      && (forall e | e in Members(envKeys) && NeedsCleanup(s, userId, e) :: exists a | a in r :: a.envKey == e)
    decreases |envKeys|
  {
    hide NeedsCleanup;
    if envKeys != [] {
      var e, rest := envKeys[0], envKeys[1..];
      AdmissionsForEffect(s, userId, rest, reason, actor);
      MembersCons(e, rest);
      assert envKeys == [e] + rest;
      var tail, r := AdmissionsFor(s, userId, rest, reason, actor), AdmissionsFor(s, userId, envKeys, reason, actor);
      assert forall a | a in tail :: a in r;
      assert NeedsCleanup(s, userId, e) ==> r[0].envKey == e && r[0] in r;
    }
  }

  // The admissions and the grants an accepted call writes.
  function Dropped(s: Store, userId: string, clean: set<string>, actor: Option<string>): seq<Admission> {
    AdmissionsFor(s, userId, Sorted(EnvsOf(s.grants, userId) - clean), AdminRevoked, actor)
  }

  predicate SetScopeAllowed(s: Store, userId: string, clean: set<string>) {
    && userId in s.users
    && clean <= s.environments.Keys
    && clean !! s.tables.holds.Keys
    && forall e | e in clean :: !OwnedByOther(s.grants, userId, e)
  }

  lemma AllowedIsChecked(s: Store, userId: string, clean: set<string>)
    ensures SetScopeAllowed(s, userId, clean) <==> ScopeRefusal(s, userId, clean).None?
  {
    hide OwnedByOther, IsLeast;
    var unknown, held, foreign := clean - s.environments.Keys, HeldBy(s, clean), ForeignBy(s, userId, clean);
    if unknown == {} && held == {} && foreign == {} {
      assert forall e | e in clean :: e !in unknown && e !in held && e !in foreign;
    }
  }

  // The admitted cleanups never touch a listed environment, so for every listed
  // one the trigger and the index stay quiet.
  lemma ListedStayInsertable(s: Store, userId: string, clean: set<string>, actor: Option<string>,
                             target: Option<Target>,
                             now: int)
    requires SetScopeAllowed(s, userId, clean)
    requires EnqueueAll(s.tables, Dropped(s, userId, clean, actor), target, now).Some?
    ensures var tables := EnqueueAll(s.tables, Dropped(s, userId, clean, actor), target, now).value;
      forall e | e in clean :: Insertable(tables.holds, WithoutUser(s.grants, userId), userId, e)
  {
    hide NeedsCleanup, EnqueueAll, AdmissionsFor, Sorted;
    var removed := Sorted(EnvsOf(s.grants, userId) - clean);
    var admissions := Dropped(s, userId, clean, actor);
    AdmissionsForEffect(s, userId, removed, AdminRevoked, actor);
    EnqueueAllEffect(s.tables, admissions, target, now);
  }

  // A call is accepted exactly when the user exists, every listed environment is
  // registered, has no hold and no other owner, and the cleanups can be admitted;
  // then the user owns exactly the listed environments.
  lemma SetScopeOutcome(s: Store, userId: string, items: seq<string>, actor: Option<string>, target: Option<Target>,
                        now: int)
    ensures var clean := CleanKeys(items);
      var o := SetScopeTx(s, userId, items, actor, target, now);
      var tables := EnqueueAll(s.tables, Dropped(s, userId, clean, actor), target, now);
      && (o.Done? <==> SetScopeAllowed(s, userId, clean) && tables.Some?)
      && (o.Done? ==> o.store == s.(
            tables := tables.value,
            grants := WithGrants(s, WithoutUser(s.grants, userId), userId, clean, actor, now),
            audit := AuditGrants(s, userId, EnvsOf(s.grants, userId), clean, AdminRevoked, now, actor)))
  {
    hide CleanKeys, EnqueueAll, AdmissionsFor, NewGrant, AuditGrants, WithoutUser, EnvsOf, ScopeRefusal,
         InsertAll, SetScopeAllowed, Insertable, WithGrants;
    var clean := CleanKeys(items);
    AllowedIsChecked(s, userId, clean);
    var tables := EnqueueAll(s.tables, Dropped(s, userId, clean, actor), target, now);
    if SetScopeAllowed(s, userId, clean) && tables.Some? {
      assert Members(Sorted(clean)) == clean;
      ListedStayInsertable(s, userId, clean, actor, target, now);
      InsertAllEffect(s, tables.value.holds, WithoutUser(s.grants, userId), userId, Sorted(clean), actor, now);
    }
  }

  // An accepted call leaves the user with exactly the listed environments and
  // everybody else with what they had.
  lemma SetScopeReplaces(s: Store, userId: string, items: seq<string>, actor: Option<string>, target: Option<Target>,
                         now: int)
    requires SetScopeTx(s, userId, items, actor, target, now).Done?
    ensures var s' := SetScopeTx(s, userId, items, actor, target, now).store;
      && EnvsOf(s'.grants, userId) == CleanKeys(items)
      && (forall k: (string, string) | k.0 != userId ::
            (k in s'.grants <==> k in s.grants) && (k in s.grants ==> s'.grants[k] == s.grants[k]))
      && (OneOwner(s.grants) ==> OneOwner(s'.grants))
      && CleanKeys(items) !! s.tables.holds.Keys
      && CleanKeys(items) !! s'.tables.holds.Keys
  {
    hide CleanKeys, EnqueueAll, AdmissionsFor, NewGrant, AuditGrants, SetScopeTx, WithGrants, WithoutUser, EnvsOf,
         Dropped;
    SetScopeOutcome(s, userId, items, actor, target, now);
    var s' := SetScopeTx(s, userId, items, actor, target, now).store;
    ListedStayInsertable(s, userId, CleanKeys(items), actor, target, now);
    ReplacedGrants(s, s'.tables.holds, userId, CleanKeys(items), actor, now);
  }

  // ---------- What every transaction keeps ----------

  // A grant of s that s' no longer has, or has with another assignment.
  predicate Removed(s: Store, s': Store, k: (string, string)) {
    k in s.grants && !(k in s'.grants && s'.grants[k] == s.grants[k])
  }

  ghost predicate Audited(s: Store, s': Store, k: (string, string))
    requires k in s.grants
  {
    exists reason :: AuditKey(k.0, k.1, s.grants[k].assignedAt, reason) in s'.audit
  }

  // An environment that becomes held is nobody's afterwards.
  predicate NewlyHeldAreFree(s: Store, s': Store) {
    forall k | k in s'.grants && k.1 in s'.tables.holds :: k.1 in s.tables.holds
  }

  // In one step: one owner stays one owner; an environment with a hold, before or
  // after, gains no grant and keeps none that changed; every removed grant is
  // audited and, where cleanup applies, leaves a hold; holds are only added.
  ghost predicate StepLaws(s: Store, s': Store) {
    && (OneOwner(s.grants) ==> OneOwner(s'.grants) && NewlyHeldAreFree(s, s'))
    && (forall k | k in s'.grants && (k.1 in s.tables.holds || k.1 in s'.tables.holds) ::
          k in s.grants && s'.grants[k] == s.grants[k])
    && (forall k | k in s.grants && Removed(s, s', k) :: Audited(s, s', k))
    && (forall k | k in s.grants && k !in s'.grants && NeedsCleanup(s, k.0, k.1) :: k.1 in s'.tables.holds)
    && (forall a | a in s.audit :: a in s'.audit && s'.audit[a] == s.audit[a])
    && AddsPendingHolds(s.tables, s'.tables)
  }

  lemma AuditGrantsEffect(s: Store, userId: string, envKeys: set<string>, kept: set<string>, reason: Reason, now: int,
                          actor: Option<string>)
    ensures var audit := AuditGrants(s, userId, envKeys, kept, reason, now, actor);
      && (forall a | a in s.audit :: a in audit && audit[a] == s.audit[a])
      && (forall e | e in envKeys && (userId, e) in s.grants ::
            AuditKey(userId, e, s.grants[(userId, e)].assignedAt,
                     if e in kept then ScopeReplaced else Revoked(reason)) in audit)
  {
  }

  // Grants of the user audited in s' count as audited.
  lemma AuditedByGrants(s: Store, s': Store, userId: string, envKeys: set<string>, kept: set<string>, reason: Reason,
                        now: int, actor: Option<string>)
    requires s'.audit == AuditGrants(s, userId, envKeys, kept, reason, now, actor)
    ensures forall e | e in envKeys && (userId, e) in s.grants :: Audited(s, s', (userId, e))
    ensures forall a | a in s.audit :: a in s'.audit && s'.audit[a] == s.audit[a]
  {
    hide AuditGrants;
    AuditGrantsEffect(s, userId, envKeys, kept, reason, now, actor);
    forall e | e in envKeys && (userId, e) in s.grants ensures Audited(s, s', (userId, e)) {
      assert AuditKey(userId, e, s.grants[(userId, e)].assignedAt,
                      if e in kept then ScopeReplaced else Revoked(reason)) in s'.audit;
    }
  }

  // Everything the user owned outside `kept` and that needs cleanup has a hold.
  lemma RevokedAreHeld(s: Store, t': Tables, userId: string, kept: set<string>, reason: Reason, actor: Option<string>,
                       target: Option<Target>, now: int)
    requires var revoked := Sorted(EnvsOf(s.grants, userId) - kept);
      EnqueueAll(s.tables, AdmissionsFor(s, userId, revoked, reason, actor), target, now) == Some(t')
    ensures AddsPendingHolds(s.tables, t')
    ensures forall e | (userId, e) in s.grants && e !in kept && NeedsCleanup(s, userId, e) :: e in t'.holds
    ensures forall e | e in t'.holds && e !in s.tables.holds ::
              (userId, e) in s.grants && e !in kept
              && t'.holds[e].userId == Some(userId) && t'.holds[e].reason == reason && t'.holds[e].revokedBy == actor
  {
    hide EnqueueAll, AdmissionsFor, NeedsCleanup, Sorted, AddsPendingHolds;
    forall e | e in t'.holds && e !in s.tables.holds
      ensures (userId, e) in s.grants && e !in kept
              && t'.holds[e].userId == Some(userId) && t'.holds[e].reason == reason && t'.holds[e].revokedBy == actor
    {
      var revoked := Sorted(EnvsOf(s.grants, userId) - kept);
      var a := EnqueuedCarry(s.tables, AdmissionsFor(s, userId, revoked, reason, actor), target, now, e);
      AdmissionsForEffect(s, userId, revoked, reason, actor);
      assert a.envKey in Members(revoked);
    }
    var revoked := EnvsOf(s.grants, userId) - kept;
    AdmissionsForEffect(s, userId, Sorted(revoked), reason, actor);
    EnqueueAllEffect(s.tables, AdmissionsFor(s, userId, Sorted(revoked), reason, actor), target, now);
    forall e | (userId, e) in s.grants && e !in kept && NeedsCleanup(s, userId, e) ensures e in t'.holds {
      assert e in Members(Sorted(revoked));
    }
  }

  lemma RevokedAreFree(s: Store, s': Store, userId: string, kept: set<string>)
    requires OneOwner(s.grants)
    requires forall e | e in s'.tables.holds && e !in s.tables.holds :: (userId, e) in s.grants && e !in kept
    requires forall k | k in s'.grants :: if k.0 == userId then k.1 in kept else k in s.grants
    ensures NewlyHeldAreFree(s, s')
  {
  }

  lemma SetScopeLaws(s: Store, userId: string, items: seq<string>, actor: Option<string>, target: Option<Target>,
                     now: int)
    requires SetScopeTx(s, userId, items, actor, target, now).Done?
    ensures StepLaws(s, SetScopeTx(s, userId, items, actor, target, now).store)
  {
    hide CleanKeys, EnqueueAll, AuditGrants, SetScopeTx, NeedsCleanup, Audited, AdmissionsFor, WithGrants, WithoutUser,
         AddsPendingHolds, OneOwner, Sorted;
    SetScopeOutcome(s, userId, items, actor, target, now);
    SetScopeReplaces(s, userId, items, actor, target, now);
    var s' := SetScopeTx(s, userId, items, actor, target, now).store;
    var clean, owned := CleanKeys(items), EnvsOf(s.grants, userId);
    RevokedAreHeld(s, s'.tables, userId, clean, AdminRevoked, actor, target, now);
    AuditedByGrants(s, s', userId, owned, clean, AdminRevoked, now, actor);
    forall k | k in s.grants && Removed(s, s', k) ensures Audited(s, s', k) {
      assert k.0 == userId && k.1 in owned && k == (userId, k.1);
    }
    forall k | k in s.grants && k !in s'.grants && NeedsCleanup(s, k.0, k.1) ensures k.1 in s'.tables.holds {
      assert k == (userId, k.1);
    }
    assert forall k | k in s'.grants && k.0 == userId :: k.1 in EnvsOf(s'.grants, userId);
    if OneOwner(s.grants) { RevokedAreFree(s, s', userId, clean); }
  }

  lemma UpdateUserLaws(s: Store, userId: string, name: Option<string>, enable: Option<bool>, actor: Option<string>,
                       target: Option<Target>, now: int)
    requires UpdateUserTx(s, userId, name, enable, actor, target, now).Done?
    ensures StepLaws(s, UpdateUserTx(s, userId, name, enable, actor, target, now).store)
  {
    hide EnqueueAll, AuditGrants, NeedsCleanup, ValidName, NameInUse, Trim, Audited, AdmissionsFor, RevokeAll, StepLaws;
    var s' := UpdateUserTx(s, userId, name, enable, actor, target, now).store;
    if s.users[userId].enabled && !enable.UnwrapOr(true) {
      RevokeAllLaws(s, userId, actor, target, now);
      OnlyBooksMatter(s, RevokeAll(s, userId, actor, target, now).value, s');
    } else {
      NothingMoves(s);
      OnlyBooksMatter(s, s, s');
    }
  }

  lemma NothingMoves(s: Store)
    ensures StepLaws(s, s)
  {
  }

  // Users and the registry are no part of what is kept.
  predicate SameBooks(a: Store, b: Store) {
    b.tables == a.tables && b.grants == a.grants && b.audit == a.audit
  }

  lemma SameGrantsSameAudit(s: Store, a: Store, b: Store, k: (string, string))
    requires k in s.grants && SameBooks(a, b)
    ensures Removed(s, a, k) <==> Removed(s, b, k)
    ensures Audited(s, a, k) <==> Audited(s, b, k)
  {
  }

  lemma OnlyBooksMatter(s: Store, a: Store, b: Store)
    requires StepLaws(s, a) && SameBooks(a, b)
    ensures StepLaws(s, b)
  {
    hide NeedsCleanup, AddsPendingHolds, OneOwner, Audited, Removed;
    forall k | k in s.grants && Removed(s, b, k) ensures Audited(s, b, k) {
      SameGrantsSameAudit(s, a, b, k);
    }
  }

  lemma RevokeAllLaws(s: Store, userId: string, actor: Option<string>, target: Option<Target>, now: int)
    requires RevokeAll(s, userId, actor, target, now).Some?
    ensures StepLaws(s, RevokeAll(s, userId, actor, target, now).value)
  {
    hide EnqueueAll, AuditGrants, NeedsCleanup, Audited, AdmissionsFor, AddsPendingHolds;
    var s' := RevokeAll(s, userId, actor, target, now).value;
    var owned := EnvsOf(s.grants, userId);
    assert owned - {} == owned;
    RevokedAreHeld(s, s'.tables, userId, {}, CustomerTerminated, actor, target, now);
    AuditedByGrants(s, s', userId, owned, {}, CustomerTerminated, now, actor);
    forall k | k in s.grants && Removed(s, s', k) ensures Audited(s, s', k) {
      assert k.0 == userId && k.1 in owned && k == (userId, k.1);
    }
    forall k | k in s.grants && k !in s'.grants && NeedsCleanup(s, k.0, k.1) ensures k.1 in s'.tables.holds {
      assert k == (userId, k.1);
    }
  }

  lemma BeginOffboardLaws(s: Store, userId: string, envKey: string, bound: bool, target: Option<Target>, now: int)
    requires BeginOffboardTx(s, userId, envKey, bound, target, now).Done?
    ensures StepLaws(s, BeginOffboardTx(s, userId, envKey, bound, target, now).store)
  {
    hide EnqueueAll, AuditGrants, NeedsCleanup, SelfProvisioned, Trim, Audited;
    var s' := BeginOffboardTx(s, userId, envKey, bound, target, now).store;
    var key, actor := Trim(envKey), Some("client:" + userId);
    var admission := Admission(key, userId, EnvironmentUnbind, actor, !bound);
    EnqueueAllEffect(s.tables, [admission], target, now);
    assert admission in [admission];
    AuditedByGrants(s, s', userId, {key}, {}, EnvironmentUnbind, now, actor);
    forall k | k in s.grants && Removed(s, s', k) ensures Audited(s, s', k) { assert k == (userId, key); }
  }

  lemma ProvisionLaws(s: Store, userId: string, intentId: string, envKey: string, labelText: Option<string>,
                      platform: string, now: int)
    requires ProvisionTx(s, userId, intentId, envKey, labelText, platform, now).Done?
    ensures StepLaws(s, ProvisionTx(s, userId, intentId, envKey, labelText, platform, now).store)
  {
    hide NeedsCleanup, Audited, AddsPendingHolds, Wechat;
    NothingMoves(s);
    assert !OwnedByOther(s.grants, userId, envKey);
    var s' := ProvisionTx(s, userId, intentId, envKey, labelText, platform, now).store;
    assert forall k | k in s.grants :: k in s'.grants && s'.grants[k] == s.grants[k];
  }

  // What ownership sees of the registry table.
  function RegistryView(reg: Environments.Registry): map<string, Environment> {
    map e | e in reg :: Environment(reg[e].labelText, reg[e].platform)
  }

  // Registrations change it as they change the whole table, whatever becomes of the
  // bindings.
  lemma {:induction false} RegistryViewsAgree(reg: Environments.Registry, scope: Environments.Scope,
                                              items: seq<Environments.Item>)
    ensures RegisterRows(RegistryView(reg), items) == RegistryView(Environments.RegisterAll(reg, scope, items))
    decreases |items|
  {
    hide Environments.Conflicts;
    if items != [] {
      var next := Environments.RegisterOne(reg, scope, items[0]);
      assert RegisterRow(RegistryView(reg), items[0]) == RegistryView(next);
      RegistryViewsAgree(next, scope, items[1..]);
    }
  }

  lemma OperationLaws(s: Store, op: StoreOp)
    ensures StepLaws(s, AfterStore(s, Perform(s, op)))
  {
    hide SetScopeTx, UpdateUserTx, BeginOffboardTx, ProvisionTx, NeedsCleanup, Audited;
    if Perform(s, op).Done? {
      match op
      case SetScope(userId, items, actor, target, now) => SetScopeLaws(s, userId, items, actor, target, now);
      case UpdateUser(userId, name, enable, actor, target, now) =>
        UpdateUserLaws(s, userId, name, enable, actor, target, now);
      case BeginOffboard(userId, envKey, bound, target, now) =>
        BeginOffboardLaws(s, userId, envKey, bound, target, now);
      case Provision(userId, intentId, envKey, labelText, platform, now) =>
        ProvisionLaws(s, userId, intentId, envKey, labelText, platform, now);
      case CreateUser(_, _) =>
        NothingMoves(s);
        OnlyBooksMatter(s, s, Perform(s, op).store);
      case RegisterEnvironments(_) =>
        NothingMoves(s);
        OnlyBooksMatter(s, s, Perform(s, op).store);
    }
  }

  // A revocation that needs cleanup has a hold of its own, pending and under a fresh
  // offboard, exactly when the environment was not held before; else it finds the row
  // already there and changes nothing of it.
  lemma RevocationHolds(s: Store, op: StoreOp, k: (string, string))
    requires k in s.grants && NeedsCleanup(s, k.0, k.1) && k !in AfterStore(s, Perform(s, op)).grants
    ensures var t, t' := s.tables, AfterStore(s, Perform(s, op)).tables;
      && k.1 in t'.holds
      && (if k.1 in t.holds then t'.holds[k.1] == t.holds[k.1] else FreshlyAdmitted(t'.holds[k.1], t.issued, t'.issued))
  {
    hide Perform, NeedsCleanup, Audited, OneOwner, NewlyHeldAreFree, FreshlyAdmitted, Removed;
    OperationLaws(s, op);
  }

  // A row left over from an earlier, materialised cleanup absorbs the revocation: the
  // next newer snapshot that does not list the environment releases it.
  lemma LeftoverAbsorbs(s: Store, op: StoreOp, k: (string, string), target: Target, c: Command, now: int)
    requires k in s.grants && NeedsCleanup(s, k.0, k.1) && k !in AfterStore(s, Perform(s, op)).grants
    requires k.1 in s.tables.holds && c.Reconcile?
    requires Releasable(s.tables.holds[k.1], k.1, target, c.observedAt, EnvKeys(c.rows))
    requires AppliesSnapshot(AfterStore(s, Perform(s, op)).tables, target, c, now)
    ensures k.1 !in ReconcileTx(AfterStore(s, Perform(s, op)).tables, target, c, now).tables.holds
  {
    hide Perform, NeedsCleanup, Audited, OneOwner, NewlyHeldAreFree, FreshlyAdmitted, Removed, AppliesSnapshot,
         ReconcileTx, PayloadHash, AdoptMissing, PrimaryKey, AdoptedHold;
    RevocationHolds(s, op, k);
    var t := AfterStore(s, Perform(s, op)).tables;
    AppliedSnapshotTables(t, target, c, now);
    AppliedSnapshotHolds(t, target, c, now);
    assert k.1 !in ReconcileTx(t, target, c, now).tables.holds.Keys;
  }

  // Customer offboarding: in one step the owner is gone, the environment is held, the
  // grant is in the audit, and every other grant is what it was.
  lemma OffboardRemovesAndHolds(s: Store, userId: string, envKey: string, bound: bool, target: Option<Target>, now: int)
    requires BeginOffboardTx(s, userId, envKey, bound, target, now).Done?
    ensures var s' := BeginOffboardTx(s, userId, envKey, bound, target, now).store;
      var k := (userId, Trim(envKey));
      && k in s.grants && s'.grants == s.grants - {k}
      && k.1 in s'.tables.holds
      && (k.1 !in s.tables.holds ==>
            var h := s'.tables.holds[k.1];
            h.materializedAt.None? && h.userId == Some(userId) && h.reason == EnvironmentUnbind
            && h.target == target && h.unboundTerminalOk == !bound)
      && Audited(s, s', k)
      && (OneOwner(s.grants) ==> forall u :: (u, k.1) !in s'.grants)
  {
    hide EnqueueAll, AuditGrants, SelfProvisioned, Trim, Audited, AddsPendingHolds, IssuedOffboardId,
         IssuedRevocationId;
    var key, actor := Trim(envKey), Some("client:" + userId);
    var admission := Admission(key, userId, EnvironmentUnbind, actor, !bound);
    EnqueueSingle(s.tables, admission, target, now);
    EnqueueEffect(s.tables, admission, target.value, now);
    AuditedByGrants(s, BeginOffboardTx(s, userId, envKey, bound, target, now).store, userId, {key}, {},
                    EnvironmentUnbind,
                    now, actor);
  }
}
