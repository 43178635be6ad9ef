// When each store transaction is accepted, what it answers otherwise, and the whole
// store it leaves, said of the tables alone.

module OwnershipOutcomes {
  import opened Wrappers
  import opened Text
  import opened Commands
  import opened Admissions
  import opened Ownership
  import opened OwnershipLaws

  // ---------- Cleanups ----------

  // The grant, or the registry, names the wechat platform.
  predicate CleanupDue(s: Store, userId: string, e: string) {
    && (userId, e) in s.grants
    && (s.grants[(userId, e)].platform == Some("wechat_channels")
        || (e in s.environments && s.environments[e].platform == Some("wechat_channels")))
  }

  // A target is configured, and no hold in the way is another target's.
  predicate Admittable(s: Store, userId: string, keys: set<string>, target: Option<Target>) {
    forall e | e in keys && CleanupDue(s, userId, e) ::
      target.Some? && (e in s.tables.holds ==> s.tables.holds[e].target == target)
  }

  // A pending hold with ids drawn in between, claimed by nobody.
  ghost predicate NewCleanup(h: Hold, before: nat, after: nat, a: Admission, target: Option<Target>, now: int) {
    exists n: nat | before <= n < after ::
      h == Hold(IssuedRevocationId(n), IssuedOffboardId(n), Some(a.userId), a.reason, a.actor, a.unboundTerminalOk,
                None, 1, None, target, now)
  }

  // The holds before, and a new one for each environment whose cleanup is due and that
  // had none.
  ghost predicate AdmitsCleanups(s: Store, s': Store, userId: string, keys: set<string>, reason: Reason,
                                 actor: Option<string>, unboundOk: bool, target: Option<Target>, now: int)
  {
    var t, t' := s.tables, s'.tables;
    && t'.commands == t.commands && t'.snapshots == t.snapshots
    && (forall e :: e in t'.holds <==> e in t.holds || (e in keys && CleanupDue(s, userId, e)))
    && (forall e | e in t.holds :: t'.holds[e] == t.holds[e])
    && (forall e | e in t'.holds && e !in t.holds ::
          NewCleanup(t'.holds[e], t.issued, t'.issued, Admission(e, userId, reason, actor, unboundOk), target, now))
  }

  lemma NewHoldTarget(t: Tables, a: Admission, target: Target, now: int)
    ensures NewHold(t, a, target, now).target == Some(target)
  {
  }

  predicate Admits(t: Tables, a: Admission, target: Option<Target>) {
    target.Some? && (a.envKey in t.holds ==> t.holds[a.envKey].target == target)
  }

  lemma EnqueueAdmits(t: Tables, a: Admission, target: Target, now: int)
    ensures Enqueue(t, a, target, now).Some? <==> Admits(t, a, Some(target))
    ensures Enqueue(t, a, target, now).Some? ==>
              forall b :: Admits(Enqueue(t, a, target, now).value, b, Some(target)) <==> Admits(t, b, Some(target))
  {
    hide NewHold;
    NewHoldTarget(t, a, target, now);
  }

  lemma {:induction false} EnqueuesIff(t: Tables, admissions: seq<Admission>, target: Option<Target>, now: int)
    ensures EnqueueAll(t, admissions, target, now).Some? <==> forall a | a in admissions :: Admits(t, a, target)
    decreases |admissions|
  {
    hide Enqueue, Admits;
    if admissions != [] {
      var a, rest := admissions[0], admissions[1..];
      assert forall b :: b in admissions <==> b == a || b in rest by {
        assert admissions == [a] + rest;
      }
      if target.None? {
        NoTarget(t, a);
      } else {
        EnqueueAdmits(t, a, target.value, now);
        if Enqueue(t, a, target.value, now).Some? {
          EnqueuesIff(Enqueue(t, a, target.value, now).value, rest, target, now);
        }
      }
    }
  }

  lemma NoTarget(t: Tables, a: Admission)
    ensures !Admits(t, a, None)
  {
  }

  lemma {:induction false} EnqueuedRow(t: Tables, admissions: seq<Admission>, target: Option<Target>, now: int,
                                       e: string)
      returns (a: Admission)
    requires EnqueueAll(t, admissions, target, now).Some?
    requires e in EnqueueAll(t, admissions, target, now).value.holds && e !in t.holds
    ensures a in admissions && a.envKey == e
    ensures var t' := EnqueueAll(t, admissions, target, now).value;
      NewCleanup(t'.holds[e], t.issued, t'.issued, a, target, now)
    decreases |admissions|
  {
    hide IssuedRevocationId, IssuedOffboardId;
    var next := Enqueue(t, admissions[0], target.value, now).value;
    EnqueueAllEffect(next, admissions[1..], target, now);
    if e in next.holds {
      a := admissions[0];
      assert next.holds[e] == Hold(IssuedRevocationId(t.issued), IssuedOffboardId(t.issued), Some(a.userId), a.reason,
                                   a.actor, a.unboundTerminalOk, None, 1, None, target, now);
    } else {
      a := EnqueuedRow(next, admissions[1..], target, now, e);
      var t' := EnqueueAll(t, admissions, target, now).value;
      WiderDraws(t'.holds[e], t.issued, next.issued, t'.issued, a, target, now);
    }
  }

  lemma WiderDraws(h: Hold, first: nat, before: nat, after: nat, a: Admission, target: Option<Target>, now: int)
    requires first <= before && NewCleanup(h, before, after, a, target, now)
    ensures NewCleanup(h, first, after, a, target, now)
  {
    hide IssuedRevocationId, IssuedOffboardId;
  }

  lemma DueNeedsCleanup(s: Store, userId: string, e: string)
    ensures CleanupDue(s, userId, e) <==> NeedsCleanup(s, userId, e)
  {
  }

  // The admissions of a revocation are those of the environments whose cleanup is due.
  lemma DueAdmissions(s: Store, userId: string, keys: set<string>, reason: Reason, actor: Option<string>)
    ensures var admissions := AdmissionsFor(s, userId, Sorted(keys), reason, actor);
      && (forall a | a in admissions ::
            && a.envKey in keys && CleanupDue(s, userId, a.envKey)
            && a == Admission(a.envKey, userId, reason, actor, false))
      && (forall e | e in keys && CleanupDue(s, userId, e) :: exists a | a in admissions :: a.envKey == e)
  {
    hide AdmissionsFor, NeedsCleanup, CleanupDue, Sorted;
    AdmissionsForEffect(s, userId, Sorted(keys), reason, actor);
    forall e ensures CleanupDue(s, userId, e) <==> NeedsCleanup(s, userId, e) { DueNeedsCleanup(s, userId, e); }
    assert forall e :: e in keys <==> e in Members(Sorted(keys));
  }

  lemma RevocationIsAdmitted(s: Store, userId: string, keys: set<string>, reason: Reason, actor: Option<string>,
                             target: Option<Target>, now: int)
    ensures EnqueueAll(s.tables, AdmissionsFor(s, userId, Sorted(keys), reason, actor), target, now).Some?
       <==> Admittable(s, userId, keys, target)
  {
    hide EnqueueAll, AdmissionsFor, CleanupDue, Sorted;
    DueAdmissions(s, userId, keys, reason, actor);
    EnqueuesIff(s.tables, AdmissionsFor(s, userId, Sorted(keys), reason, actor), target, now);
  }

  // Revoking environments of one user admits their cleanups, if that is possible.
  lemma RevocationAdmits(s: Store, userId: string, keys: set<string>, reason: Reason, actor: Option<string>,
                         target: Option<Target>, now: int)
    ensures var o := EnqueueAll(s.tables, AdmissionsFor(s, userId, Sorted(keys), reason, actor), target, now);
      && (o.Some? <==> Admittable(s, userId, keys, target))
      && (o.Some? ==> AdmitsCleanups(s, s.(tables := o.value), userId, keys, reason, actor, false, target, now))
  {
    hide EnqueueAll, AdmissionsFor, CleanupDue, NewCleanup, FreshlyAdmitted, Sorted, Admittable;
    var admissions := AdmissionsFor(s, userId, Sorted(keys), reason, actor);
    DueAdmissions(s, userId, keys, reason, actor);
    RevocationIsAdmitted(s, userId, keys, reason, actor, target, now);
    var o := EnqueueAll(s.tables, admissions, target, now);
    if o.Some? {
      EnqueueAllEffect(s.tables, admissions, target, now);
      forall e ensures e in o.value.holds <==> e in s.tables.holds || (e in keys && CleanupDue(s, userId, e)) {
        assert e in o.value.holds <==> e in o.value.holds.Keys;
      }
      forall e | e in o.value.holds && e !in s.tables.holds
        ensures NewCleanup(o.value.holds[e], s.tables.issued, o.value.issued,
                           Admission(e, userId, reason, actor, false), target, now)
      {
        var a := EnqueuedRow(s.tables, admissions, target, now, e);
      }
    }
  }

  // ---------- Audit ----------

  // One row for each of the user's grants for `keys`, unless there is one already: who
  // revoked it now, and why. Nothing is lost.
  ghost predicate AuditsGrants(s: Store, s': Store, userId: string, keys: set<string>, kept: set<string>,
                               reason: Reason, now: int, actor: Option<string>)
  {
    && (forall a :: a in s'.audit <==>
          || a in s.audit
          || (&& a.userId == userId && a.envKey in keys && (userId, a.envKey) in s.grants
              && a.assignedAt == s.grants[(userId, a.envKey)].assignedAt
              && a.reason == if a.envKey in kept then ScopeReplaced else Revoked(reason)))
    && (forall a | a in s'.audit ::
          s'.audit[a] == if a in s.audit then s.audit[a]
                         else if (userId, a.envKey) in s.grants then AuditRow(s.grants[(userId, a.envKey)], now, actor)
                         else s'.audit[a])
  }

  lemma AuditGrantsAudits(s: Store, s': Store, userId: string, keys: set<string>, kept: set<string>, reason: Reason,
                          now: int, actor: Option<string>)
    requires s'.audit == AuditGrants(s, userId, keys, kept, reason, now, actor)
    ensures AuditsGrants(s, s', userId, keys, kept, reason, now, actor)
  {
  }

  // ---------- updateUser ----------

  predicate NameFree(users: map<string, User>, userId: string, name: string) {
    forall u | u in users && u != userId :: users[u].name != name
  }

  // A patch is accepted exactly when the user exists, the new name is a free one of 1 to
  // 64 units and, where it disables the user, the cleanups can be admitted. Disabling
  // takes everything the user owns, audits it and holds what is to be cleaned up; any
  // other patch changes the user's row alone.
  lemma UpdateUserOutcome(s: Store, userId: string, name: Option<string>, enable: Option<bool>, actor: Option<string>,
                          target: Option<Target>, now: int)
    ensures var o := UpdateUserTx(s, userId, name, enable, actor, target, now);
      var disables := userId in s.users && s.users[userId].enabled && enable == Some(false);
      var owned := set k | k in s.grants && k.0 == userId :: k.1;
      && (o.Done? <==>
            && userId in s.users
            && (name.Some? ==> 1 <= Utf16Length(Trim(name.value)) <= 64 && NameFree(s.users, userId, Trim(name.value)))
            && (disables ==> Admittable(s, userId, owned, target)))
      && (o.Refused? ==>
            o.refusal == if userId !in s.users then NotFound
                         else if name.Some? && !(1 <= Utf16Length(Trim(name.value)) <= 64) then InvalidName
                         else if name.Some? && !NameFree(s.users, userId, Trim(name.value)) then NameTaken
                         else Failed)
      && (o.Done? ==>
            var s' := o.store;
            var user := s.users[userId];
            && s'.users == s.users[userId := User(if name.Some? then Trim(name.value) else user.name,
                                                  if enable.Some? then enable.value else user.enabled)]
            && s'.environments == s.environments && s'.intents == s.intents
            && (!disables ==> s'.tables == s.tables && s'.grants == s.grants && s'.audit == s.audit)
            && (disables ==>
                  && s'.grants == (map k | k in s.grants && k.0 != userId :: s.grants[k])
                  && AuditsGrants(s, s', userId, owned, {}, CustomerTerminated, now, actor)
                  && AdmitsCleanups(s, s', userId, owned, CustomerTerminated, actor, false, target, now)))
  {
    hide Admittable, AdmitsCleanups, AuditsGrants, Trim, Utf16Length, NameFree, NameInUse, UserWritten;
    if userId in s.users {
      var newName := if name.Some? then Trim(name.value) else s.users[userId].name;
      WrittenOutcome(s, userId, newName, if enable.Some? then enable.value else s.users[userId].enabled, actor, target,
                     now);
    }
    if name.Some? {
      Lengths(Trim(name.value));
      FreeIsNotInUse(s.users, userId, Trim(name.value));
    }
  }

  lemma WrittenOutcome(s: Store, userId: string, name: string, enabled: bool, actor: Option<string>,
                       target: Option<Target>, now: int)
    requires userId in s.users
    ensures var o := UserWritten(s, userId, name, enabled, actor, target, now);
      var disables := s.users[userId].enabled && !enabled;
      var owned := set k | k in s.grants && k.0 == userId :: k.1;
      && (o.Done? <==> (disables ==> Admittable(s, userId, owned, target)))
      && (o.Refused? ==> o.refusal == Failed)
      && (o.Done? ==>
            var s' := o.store;
            && s'.users == s.users[userId := User(name, enabled)]
            && s'.environments == s.environments && s'.intents == s.intents
            && (!disables ==> s'.tables == s.tables && s'.grants == s.grants && s'.audit == s.audit)
            && (disables ==>
                  && s'.grants == (map k | k in s.grants && k.0 != userId :: s.grants[k])
                  && AuditsGrants(s, s', userId, owned, {}, CustomerTerminated, now, actor)
                  && AdmitsCleanups(s, s', userId, owned, CustomerTerminated, actor, false, target, now)))
  {
    hide EnqueueAll, AdmissionsFor, AuditGrants, Admittable, AdmitsCleanups, AuditsGrants, Sorted;
    var owned := EnvsOf(s.grants, userId);
    assert owned == set k | k in s.grants && k.0 == userId :: k.1;
    RevocationAdmits(s, userId, owned, CustomerTerminated, actor, target, now);
    var o := UserWritten(s, userId, name, enabled, actor, target, now);
    if o.Done? && s.users[userId].enabled && !enabled {
      AuditGrantsAudits(s, o.store, userId, owned, {}, CustomerTerminated, now, actor);
      SameCleanups(s, s.(tables := o.store.tables), o.store, userId, owned, CustomerTerminated, actor, false, target,
                   now);
    }
  }

  lemma FreeIsNotInUse(users: map<string, User>, userId: string, name: string)
    ensures NameFree(users, userId, name) <==> !NameInUse(users, userId, name)
  {
  }

  lemma Lengths(s: string)
    ensures Utf16Length(s) >= 1 <==> s != ""
  {
  }

  lemma SameCleanups(s: Store, a: Store, b: Store, userId: string, keys: set<string>, reason: Reason,
                     actor: Option<string>, unboundOk: bool, target: Option<Target>, now: int)
    requires a.tables == b.tables && AdmitsCleanups(s, a, userId, keys, reason, actor, unboundOk, target, now)
    ensures AdmitsCleanups(s, b, userId, keys, reason, actor, unboundOk, target, now)
  {
    hide NewCleanup, CleanupDue;
  }

  // ---------- setScope ----------

  predicate OwnedElsewhere(grants: map<(string, string), Grant>, userId: string, e: string) {
    exists k | k in grants :: k.1 == e && k.0 != userId
  }

  predicate FirstOf(e: string, among: set<string>) {
    e in among && forall f | f in among :: f == e || Less(e, f)
  }

  // The refusals in their order: no such user; an environment that is not registered; one
  // that is held, told apart by whether its cleanup runs already; one with another owner;
  // a cleanup that cannot be admitted. The first environment concerned is named.
  predicate ScopeRefusedWith(s: Store, userId: string, listed: set<string>, r: Refusal) {
    var unknown := set e | e in listed && e !in s.environments;
    var held := set e | e in listed && e in s.tables.holds;
    var foreign := set e | e in listed && OwnedElsewhere(s.grants, userId, e);
    if userId !in s.users then r == NotFound
    else if unknown != {} then r.UnknownEnvironment? && FirstOf(r.envKey, unknown)
    else if held != {} then
      if r.OffboardInProgress? then FirstOf(r.envKey, held) && s.tables.holds[r.envKey].materializedAt.Some?
      else r.CleanupInProgress? && r.at.Some? && FirstOf(r.at.value, held)
           && s.tables.holds[r.at.value].materializedAt.None?
    else if foreign != {} then r.AlreadyAssigned? && r.at.Some? && FirstOf(r.at.value, foreign)
    else r == Failed
  }

  // A call is accepted exactly when the user exists, every listed environment is
  // registered, not held and nobody else's, and the cleanups of what is no longer listed
  // can be admitted. Then the user owns exactly the listed ones, granted anew as the
  // registry describes them; everything owned before is audited, what is no longer
  // listed as revoked and the rest as replaced; and what is to be cleaned up is held.
  lemma ScopeOutcome(s: Store, userId: string, items: seq<string>, actor: Option<string>, target: Option<Target>,
                     now: int)
    ensures var o := SetScopeTx(s, userId, items, actor, target, now);
      var listed := set i | i in items && Trim(i) != "" :: Trim(i);
      var owned := set k | k in s.grants && k.0 == userId :: k.1;
      && (o.Done? <==>
            && userId in s.users
            && (forall e | e in listed ::
                  e in s.environments && e !in s.tables.holds && !OwnedElsewhere(s.grants, userId, e))
            && Admittable(s, userId, owned - listed, target))
      && (o.Refused? ==> ScopeRefusedWith(s, userId, listed, o.refusal))
      && (o.Done? ==>
            var s' := o.store;
            && s'.users == s.users && s'.environments == s.environments && s'.intents == s.intents
            && (forall k: (string, string) | k.0 != userId ::
                  (k in s'.grants <==> k in s.grants) && (k in s.grants ==> s'.grants[k] == s.grants[k]))
            && (forall e :: (userId, e) in s'.grants <==> e in listed)
            && (forall e | e in listed ::
                  e in s.environments
                  && s'.grants[(userId, e)]
                     == Grant(s.environments[e].labelText, s.environments[e].platform, actor, now))
            && AuditsGrants(s, s', userId, owned, listed, AdminRevoked, now, actor)
            && AdmitsCleanups(s, s', userId, owned - listed, AdminRevoked, actor, false, target, now))
  {
    hide EnqueueAll, AdmissionsFor, AuditGrants, Admittable, AdmitsCleanups, AuditsGrants, Trim, Sorted, SetScopeTx,
         WithGrants, WithoutUser, OwnedElsewhere, OwnedByOther;
    var listed, owned := CleanKeys(items), EnvsOf(s.grants, userId);
    assert listed == set i | i in items && Trim(i) != "" :: Trim(i);
    assert owned == set k | k in s.grants && k.0 == userId :: k.1;
    var o := SetScopeTx(s, userId, items, actor, target, now);
    forall e ensures OwnedElsewhere(s.grants, userId, e) <==> OwnedByOther(s.grants, userId, e) {
      SameOwners(s.grants, userId, e);
    }
    RevocationAdmits(s, userId, owned - listed, AdminRevoked, actor, target, now);
    SetScopeOutcome(s, userId, items, actor, target, now);
    if o.Done? {
      AuditGrantsAudits(s, o.store, userId, owned, listed, AdminRevoked, now, actor);
      SameCleanups(s, s.(tables := o.store.tables), o.store, userId, owned - listed, AdminRevoked, actor, false, target,
                   now);
      GrantedAnew(s, userId, listed, actor, now);
    } else {
      ScopeAnswer(s, userId, items, actor, target, now);
    }
  }

  lemma SameOwners(grants: map<(string, string), Grant>, userId: string, e: string)
    ensures OwnedElsewhere(grants, userId, e) <==> OwnedByOther(grants, userId, e)
  {
  }

  lemma GrantedAnew(s: Store, userId: string, listed: set<string>, actor: Option<string>, now: int)
    requires listed <= s.environments.Keys
    ensures var grants := WithGrants(s, WithoutUser(s.grants, userId), userId, listed, actor, now);
      && (forall k: (string, string) | k.0 != userId ::
            (k in grants <==> k in s.grants) && (k in s.grants ==> grants[k] == s.grants[k]))
      && (forall e :: (userId, e) in grants <==> e in listed)
      && (forall e | e in listed ::
            grants[(userId, e)] == Grant(s.environments[e].labelText, s.environments[e].platform, actor, now))
  {
  }

  lemma ScopeAnswer(s: Store, userId: string, items: seq<string>, actor: Option<string>, target: Option<Target>,
                    now: int)
    requires SetScopeTx(s, userId, items, actor, target, now).Refused?
    ensures ScopeRefusedWith(s, userId, CleanKeys(items), SetScopeTx(s, userId, items, actor, target, now).refusal)
  {
    hide EnqueueAll, AdmissionsFor, AuditGrants, CleanKeys, Sorted, InsertAll, WithGrants, WithoutUser, OwnedElsewhere,
         OwnedByOther, Dropped;
    var clean := CleanKeys(items);
    var unknown := set e | e in clean && e !in s.environments;
    var held := set e | e in clean && e in s.tables.holds;
    var foreign := set e | e in clean && OwnedElsewhere(s.grants, userId, e);
    assert unknown == clean - s.environments.Keys;
    assert held == HeldBy(s, clean);
    assert foreign == ForeignBy(s, userId, clean) by {
      forall e ensures OwnedElsewhere(s.grants, userId, e) <==> OwnedByOther(s.grants, userId, e) {
        SameOwners(s.grants, userId, e);
      }
    }
    if ScopeRefusal(s, userId, clean).None? {
      NothingTrips(s, userId, items, actor, target, now);
    }
  }

  // With every check passed, only the admission of a cleanup can fail.
  lemma NothingTrips(s: Store, userId: string, items: seq<string>, actor: Option<string>, target: Option<Target>,
                     now: int)
    requires ScopeRefusal(s, userId, CleanKeys(items)).None?
    requires SetScopeTx(s, userId, items, actor, target, now).Refused?
    ensures SetScopeTx(s, userId, items, actor, target, now).refusal == Failed
    ensures HeldBy(s, CleanKeys(items)) == {} && ForeignBy(s, userId, CleanKeys(items)) == {}
    ensures CleanKeys(items) <= s.environments.Keys && userId in s.users
  {
    hide EnqueueAll, AdmissionsFor, AuditGrants, CleanKeys, Sorted, InsertAll, WithGrants, WithoutUser, OwnedByOther;
    hide SetScopeAllowed;
    AllowedIsChecked(s, userId, CleanKeys(items));
    SetScopeOutcome(s, userId, items, actor, target, now);
  }

  // ---------- beginEnvironmentOffboard ----------

  // The environment came from one of the customer's own, completed provisionings and
  // its grant is still that one.
  predicate OwnProvisioning(s: Store, userId: string, e: string) {
    && (userId, e) in s.grants
    && exists i | i in s.intents ::
         s.intents[i] == Completed(userId, e) && s.grants[(userId, e)].assignedBy == Some("client-provision:" + i)
  }

  // A customer may offboard an environment of its own, while it is enabled itself, the
  // environment is a registered wechat one, and it is bound or provisioned by the
  // customer. The grant goes to the audit and the cleanup is admitted, in one step.
  lemma OffboardOutcome(s: Store, userId: string, envKey: string, bound: bool, target: Option<Target>, now: int)
    ensures var o := BeginOffboardTx(s, userId, envKey, bound, target, now);
      var e := Trim(envKey);
      var known := userId != "" && e != "" && userId in s.users;
      var wechat := e in s.environments && s.environments[e].platform == Some("wechat_channels");
      && (o.Done? <==>
            && known && s.users[userId].enabled && (userId, e) in s.grants && wechat
            && (bound || OwnProvisioning(s, userId, e))
            && target.Some? && (e in s.tables.holds ==> s.tables.holds[e].target == target))
      && (o.Refused? ==>
            o.refusal == if !known then NotAuthorized
                         else if !s.users[userId].enabled then Disabled
                         else if (userId, e) !in s.grants then NotAuthorized
                         else if !wechat || (!bound && !OwnProvisioning(s, userId, e)) then Refusal.BindingMissing
                         else Failed)
      && (o.Done? ==>
            var s' := o.store;
            && s'.users == s.users && s'.environments == s.environments && s'.intents == s.intents
            && s'.grants == s.grants - {(userId, e)}
            && AuditsGrants(s, s', userId, {e}, {}, EnvironmentUnbind, now, Some("client:" + userId))
            && AdmitsCleanups(s, s', userId, {e}, EnvironmentUnbind, Some("client:" + userId), !bound, target, now))
  {
    hide EnqueueAll, AuditGrants, AuditsGrants, Trim, NewHold;
    var o, e := BeginOffboardTx(s, userId, envKey, bound, target, now), Trim(envKey);
    var a := Admission(e, userId, EnvironmentUnbind, Some("client:" + userId), !bound);
    EnqueueSingle(s.tables, a, target, now);
    if target.Some? { NewHoldTarget(s.tables, a, target.value, now); }
    if (userId, e) in s.grants { SameProvisioning(s, userId, e); }
    if o.Done? {
      AuditGrantsAudits(s, o.store, userId, {e}, {}, EnvironmentUnbind, now, Some("client:" + userId));
      if e !in s.tables.holds { NewHoldIsCleanup(s.tables, a, target.value, now); }
    }
  }

  lemma SameProvisioning(s: Store, userId: string, e: string)
    requires (userId, e) in s.grants
    ensures OwnProvisioning(s, userId, e) <==> SelfProvisioned(s, userId, e, s.grants[(userId, e)])
  {
  }

  lemma NewHoldIsCleanup(t: Tables, a: Admission, target: Target, now: int)
    ensures NewCleanup(NewHold(t, a, target, now), t.issued, t.issued + 1, a, Some(target), now)
  {
    hide IssuedRevocationId, IssuedOffboardId;
    var n := t.issued;
    assert NewHold(t, a, target, now)
        == Hold(IssuedRevocationId(n), IssuedOffboardId(n), Some(a.userId), a.reason, a.actor, a.unboundTerminalOk,
                None, 1, None, Some(target), now);
  }

  // ---------- completeProvisioningIntent, createUser ----------

  // A pending intent of an enabled user is completed for an environment that is not
  // registered, not held and not granted; it then is registered and granted, nothing
  // else.
  lemma ProvisionOutcome(s: Store, userId: string, intentId: string, envKey: string, labelText: Option<string>,
                         platform: string, now: int)
    ensures var o := ProvisionTx(s, userId, intentId, envKey, labelText, platform, now);
      var enabled := userId in s.users && s.users[userId].enabled;
      var pending := intentId in s.intents && s.intents[intentId] == Pending(userId);
      && (o.Done? <==>
            && enabled && pending && envKey !in s.environments && envKey !in s.tables.holds
            && forall k | k in s.grants :: k.1 != envKey)
      && (o.Refused? ==>
            o.refusal == if !enabled then Disabled
                         else if !pending then InvalidIntent
                         else if envKey in s.environments then AlreadyRegistered
                         else if envKey in s.tables.holds then Failed
                         else AlreadyAssigned(None))
      && (o.Done? ==>
            o.store == s.(
              grants := s.grants[(userId, envKey) :=
                Grant(labelText, Some(platform), Some("client-provision:" + intentId), now)],
              environments := s.environments[envKey := Environment(labelText, Some(platform))],
              intents := s.intents[intentId := Completed(userId, envKey)]))
  {
  }

  // A user is created enabled, under the trimmed name, if that is a free one of 1 to 64
  // units.
  lemma CreateUserOutcome(s: Store, userId: string, name: string)
    ensures var o := CreateUserTx(s, userId, name);
      var n := Trim(name);
      && (o.Done? <==>
            1 <= Utf16Length(n) <= 64 && userId !in s.users && forall u | u in s.users :: s.users[u].name != n)
      && (o.Refused? ==> o.refusal == if 1 <= Utf16Length(n) <= 64 then NameTaken else InvalidName)
      && (o.Done? ==> o.store == s.(users := s.users[userId := User(n, true)]))
  {
    hide Trim;
    Lengths(Trim(name));
  }
}
