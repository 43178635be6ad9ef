// The client user store as it works on its tables: the transactions that move
// ownership, statement by statement, proved to do what the table functions say.

module UserStore {
  import opened Wrappers
  import opened Text
  import opened Commands
  import opened Admissions
  import opened Ownership
  import opened OwnershipLaws

  function RefusalOf(o: StoreOutcome): Option<Refusal> {
    match o
    case Done(_) => None
    case Refused(refusal) => Some(refusal)
  }

  class ClientUserStore {
    var tables: Tables
    var users: map<string, User>
    var environments: map<string, Environment>
    var grants: map<(string, string), Grant>
    var audit: map<AuditKey, AuditRow>
    var intents: map<string, Intent>

    function Contents(): Store
      reads this
    {
      Store(tables, users, environments, grants, audit, intents)
    }

    // ROLLBACK
    method Restore(s: Store)
      modifies this
      ensures Contents() == s
    {
      tables, users, environments := s.tables, s.users, s.environments;
      grants, audit, intents := s.grants, s.audit, s.intents;
    }

    // `enqueueAdmission`
    method EnqueueAdmission(a: Admission, target: Option<Target>, now: int) returns (ok: bool)
      modifies this`tables
      ensures EnqueueAll(old(tables), [a], target, now) == if ok then Some(tables) else None
    {
      hide NewHold;
      EnqueueSingle(tables, a, target, now);
      if target.None? {
        return false;
      }
      if a.envKey in tables.holds {
        return tables.holds[a.envKey].target == target;
      }
      tables := tables.(holds := tables.holds[a.envKey := NewHold(tables, a, target.value, now)],
                        issued := tables.issued + 1);
      return true;
    }

    // The loop over the removed environments.
    method EnqueueRemoved(userId: string, removed: seq<string>, reason: Reason, actor: Option<string>,
                          target: Option<Target>, now: int) returns (ok: bool)
      modifies this`tables
      ensures EnqueueAll(old(tables), AdmissionsFor(old(Contents()), userId, removed, reason, actor), target, now)
           == if ok then Some(tables) else None
    {
      hide NeedsCleanup, Enqueue;
      ghost var s := Contents();
      for n := 0 to |removed|
        invariant EnqueueAll(tables, AdmissionsFor(s, userId, removed[n..], reason, actor), target, now)
               == EnqueueAll(old(tables), AdmissionsFor(s, userId, removed, reason, actor), target, now)
        invariant Contents() == s.(tables := tables)
      {
        assert removed[n..][0] == removed[n] && removed[n..][1..] == removed[n + 1..];
        SameNeeds(s, Contents(), userId, removed[n]);
        if NeedsCleanup(Contents(), userId, removed[n]) {
          var a := Admission(removed[n], userId, reason, actor, false);
          ghost var before := tables;
          var enqueued := EnqueueAdmission(a, target, now);
          EnqueueOneMore(before, a, AdmissionsFor(s, userId, removed[n + 1..], reason, actor), target, now);
          if !enqueued {
            return false;
          }
        }
      }
      return true;
    }

    // INSERT of each listed environment, past the trigger and the one-owner index.
    method InsertGrants(userId: string, envKeys: seq<string>, actor: Option<string>, now: int)
      returns (result: Insertion)
      requires Members(envKeys) <= environments.Keys
      modifies this`grants
      ensures result == InsertAll(old(Contents()), tables.holds, old(grants), userId, envKeys, actor, now)
      ensures result.Inserted? ==> result.grants == grants
    {
      hide InsertGrant, NewGrant;
      ghost var s := Contents();
      for n := 0 to |envKeys|
        invariant Members(envKeys[n..]) <= s.environments.Keys
        invariant InsertAll(s, tables.holds, grants, userId, envKeys[n..], actor, now)
               == InsertAll(s, tables.holds, old(grants), userId, envKeys, actor, now)
        invariant Contents() == s.(grants := grants)
      {
        assert envKeys[n] in Members(envKeys);
        assert envKeys[n..][1..] == envKeys[n + 1..];
        assert Members(envKeys[n + 1..]) <= Members(envKeys);
        SameNewGrant(s, Contents(), envKeys[n], actor, now);
        match InsertGrant(tables.holds, grants, userId, envKeys[n], NewGrant(Contents(), envKeys[n], actor, now)) {
          case HoldTrips => return HoldTrips;
          case IndexTrips => return IndexTrips;
          case Inserted(next) => grants := next;
        }
      }
      return Inserted(grants);
    }

    // Everything after the checks: admit the cleanups, audit, delete, insert.
    method Replace(userId: string, clean: set<string>, actor: Option<string>, target: Option<Target>, now: int)
      returns (refusal: Option<Refusal>)
      requires clean <= environments.Keys
      modifies this
      ensures Contents()
           == AfterStore(old(Contents()), ReplaceScope(old(Contents()), userId, clean, actor, target, now))
      ensures refusal == RefusalOf(ReplaceScope(old(Contents()), userId, clean, actor, target, now))
    {
      hide EnqueueAll, AdmissionsFor, InsertAll, AuditGrants, WithoutUser, EnvsOf, Sorted;
      var before := Contents();
      var owned := EnvsOf(grants, userId);
      var enqueued := EnqueueRemoved(userId, Sorted(owned - clean), AdminRevoked, actor, target, now);
      if !enqueued {
        Restore(before);
        return Some(Failed);
      }
      audit := AuditGrants(before, userId, owned, clean, AdminRevoked, now, actor);
      grants := WithoutUser(grants, userId);
      ghost var s := Contents();
      var inserted := InsertGrants(userId, Sorted(clean), actor, now);
      SameInsertions(before, s, tables.holds, WithoutUser(before.grants, userId), userId, Sorted(clean), actor, now);
      if inserted.HoldTrips? {
        Restore(before);
        return Some(CleanupInProgress(None));
      }
      if inserted.IndexTrips? {
        Restore(before);
        return Some(AlreadyAssigned(None));
      }
      return None;
    }

    method SetScope(userId: string, items: seq<string>, actor: Option<string>, target: Option<Target>, now: int)
      returns (refusal: Option<Refusal>)
      modifies this
      ensures Contents() == AfterStore(old(Contents()), SetScopeTx(old(Contents()), userId, items, actor, target, now))
      ensures refusal == RefusalOf(SetScopeTx(old(Contents()), userId, items, actor, target, now))
    {
      hide CleanKeys, ReplaceScope, HeldBy, ForeignBy;
      var before := Contents();
      var clean := CleanKeys(items);
      if userId !in users {
        return Some(NotFound);
      }
      var unknown := clean - environments.Keys;
      if unknown != {} {
        return Some(UnknownEnvironment(Least(unknown)));
      }
      var held := HeldBy(before, clean);
      if held != {} {
        var e := Least(held);
        HeldHaveHolds(before, clean);
        return Some(if tables.holds[e].materializedAt.Some? then OffboardInProgress(e) else CleanupInProgress(Some(e)));
      }
      var foreign := ForeignBy(before, userId, clean);
      if foreign != {} {
        return Some(AlreadyAssigned(Some(Least(foreign))));
      }
      assert forall e | e in clean :: e !in unknown;
      refusal := Replace(userId, clean, actor, target, now);
    }

    // Disabling: admit the cleanups of everything owned, audit, delete.
    method Revoke(userId: string, actor: Option<string>, target: Option<Target>, now: int) returns (ok: bool)
      modifies this`tables, this`audit, this`grants
      ensures RevokeAll(old(Contents()), userId, actor, target, now) == if ok then Some(Contents()) else None
    {
      hide EnqueueAll, AdmissionsFor, AuditGrants, WithoutUser, EnvsOf, Sorted;
      var before := Contents();
      var owned := EnvsOf(grants, userId);
      var enqueued := EnqueueRemoved(userId, Sorted(owned), CustomerTerminated, actor, target, now);
      if !enqueued {
        return false;
      }
      audit := AuditGrants(before, userId, owned, {}, CustomerTerminated, now, actor);
      grants := WithoutUser(grants, userId);
      return true;
    }

    method UpdateUser(userId: string, name: Option<string>, enable: Option<bool>, actor: Option<string>,
                      target: Option<Target>, now: int) returns (refusal: Option<Refusal>)
      modifies this
      ensures Contents()
           == AfterStore(old(Contents()), UpdateUserTx(old(Contents()), userId, name, enable, actor, target, now))
      ensures refusal == RefusalOf(UpdateUserTx(old(Contents()), userId, name, enable, actor, target, now))
    {
      hide UserWritten, Trim, ValidName, NameInUse;
      var before := Contents();
      if userId !in users {
        return Some(NotFound);
      }
      var current := users[userId];
      var newName := current.name;
      if name.Some? {
        newName := Trim(name.value);
        if !ValidName(newName) {
          return Some(InvalidName);
        }
        if NameInUse(users, userId, newName) {
          return Some(NameTaken);
        }
      }
      refusal := WriteUser(userId, newName, enable.UnwrapOr(current.enabled), actor, target, now);
    }

    method WriteUser(userId: string, name: string, enabled: bool, actor: Option<string>, target: Option<Target>,
                     now: int)
      returns (refusal: Option<Refusal>)
      requires userId in users
      modifies this
      ensures Contents()
           == AfterStore(old(Contents()), UserWritten(old(Contents()), userId, name, enabled, actor, target, now))
      ensures refusal == RefusalOf(UserWritten(old(Contents()), userId, name, enabled, actor, target, now))
    {
      hide RevokeAll;
      var before := Contents();
      if users[userId].enabled && !enabled {
        var revoked := Revoke(userId, actor, target, now);
        if !revoked {
          Restore(before);
          return Some(Failed);
        }
      }
      users := users[userId := User(name, enabled)];
      return None;
    }

    // `bound` is what the read outside the transaction said of the binding.
    method BeginEnvironmentOffboard(userId: string, envKey: string, bound: bool, target: Option<Target>, now: int)
      returns (refusal: Option<Refusal>)
      modifies this
      ensures Contents()
           == AfterStore(old(Contents()), BeginOffboardTx(old(Contents()), userId, envKey, bound, target, now))
      ensures refusal == RefusalOf(BeginOffboardTx(old(Contents()), userId, envKey, bound, target, now))
    {
      hide EnqueueAll, AuditGrants, Trim, SelfProvisioned, Wechat;
      var before := Contents();
      var key := Trim(envKey);
      if userId == "" || key == "" || userId !in users {
        return Some(NotAuthorized);
      }
      if !users[userId].enabled {
        return Some(Disabled);
      }
      if (userId, key) !in grants {
        return Some(NotAuthorized);
      }
      if key !in environments || !Wechat(environments[key].platform) {
        return Some(Refusal.BindingMissing);
      }
      var grant := grants[(userId, key)];
      if !bound && !SelfProvisioned(before, userId, key, grant) {
        return Some(Refusal.BindingMissing);
      }
      var actor := Some("client:" + userId);
      var enqueued := EnqueueAdmission(Admission(key, userId, EnvironmentUnbind, actor, !bound), target, now);
      if !enqueued {
        Restore(before);
        return Some(Failed);
      }
      audit := AuditGrants(before, userId, {key}, {}, EnvironmentUnbind, now, actor);
      grants := grants - {(userId, key)};
      return None;
    }
  }

  lemma HeldHaveHolds(s: Store, clean: set<string>)
    ensures HeldBy(s, clean) <= s.tables.holds.Keys
  {
  }

  // Admissions look at grants and registry, which the loop leaves alone.
  lemma SameNeeds(s: Store, s': Store, userId: string, envKey: string)
    requires s'.grants == s.grants && s'.environments == s.environments
    ensures NeedsCleanup(s, userId, envKey) == NeedsCleanup(s', userId, envKey)
  {
  }

  lemma SameNewGrant(s: Store, s': Store, envKey: string, actor: Option<string>, now: int)
    requires s'.environments == s.environments && envKey in s.environments
    ensures NewGrant(s, envKey, actor, now) == NewGrant(s', envKey, actor, now)
  {
  }

  lemma {:induction false} SameInsertions(s: Store, s': Store, holds: map<string, Hold>,
                                          grants: map<(string, string), Grant>, userId: string,
                                          envKeys: seq<string>, actor: Option<string>, now: int)
    requires s'.environments == s.environments && Members(envKeys) <= s.environments.Keys
    ensures InsertAll(s, holds, grants, userId, envKeys, actor, now)
         == InsertAll(s', holds, grants, userId, envKeys, actor, now)
    decreases |envKeys|
  {
    hide InsertGrant;
    if envKeys != [] {
      assert envKeys[0] in Members(envKeys) && Members(envKeys[1..]) <= Members(envKeys);
      SameNewGrant(s, s', envKeys[0], actor, now);
      var r := InsertGrant(holds, grants, userId, envKeys[0], NewGrant(s, envKeys[0], actor, now));
      if r.Inserted? { SameInsertions(s, s', holds, r.grants, userId, envKeys[1..], actor, now); }
    }
  }

  lemma EnqueueOneMore(t: Tables, a: Admission, rest: seq<Admission>, target: Option<Target>, now: int)
    ensures EnqueueAll(t, [a] + rest, target, now)
         == match EnqueueAll(t, [a], target, now)
            case None => None
            case Some(next) => EnqueueAll(next, rest, target, now)
  {
    hide Enqueue;
    assert ([a] + rest)[1..] == rest;
    EnqueueSingle(t, a, target, now);
  }
}
