// Who owns an environment: the grant, registry and audit tables of the client
// user store, and the transactions that move grants and admit cleanups.

module Ownership {
  import opened Wrappers
  import opened Text
  import opened Commands
  import opened Admissions
  import Environments

  datatype User = User(name: string, enabled: bool)

  datatype Grant = Grant(
    labelText: Option<string>, platform: Option<string>, assignedBy: Option<string>, assignedAt: int)

  datatype Environment = Environment(labelText: Option<string>, platform: Option<string>)

  datatype AuditReason = ScopeReplaced | Revoked(reason: Reason)

  // UNIQUE (user_id, env_key, assigned_at, reason).
  datatype AuditKey = AuditKey(userId: string, envKey: string, assignedAt: int, reason: AuditReason)

  datatype AuditRow = AuditRow(grant: Grant, revokedAt: int, revokedBy: Option<string>)

  datatype Intent = Pending(userId: string) | Completed(userId: string, envKey: string)

  // client_env_scope is keyed by (user, environment); one owner per environment is
  // a unique index of its own, so here it is an invariant and not the shape.
  datatype Store = Store(
    tables: Tables,
    users: map<string, User>,
    environments: map<string, Environment>,
    grants: map<(string, string), Grant>,
    audit: map<AuditKey, AuditRow>,
    intents: map<string, Intent>)

  datatype Refusal =
    | NotFound
    | InvalidName
    | NameTaken
    | Disabled
    | NotAuthorized
    | BindingMissing
    | InvalidIntent
    | AlreadyRegistered
    | UnknownEnvironment(envKey: string)
    | CleanupInProgress(at: Option<string>)
    | OffboardInProgress(envKey: string)
    | AlreadyAssigned(at: Option<string>)
    | Failed

  datatype StoreOutcome = Done(store: Store) | Refused(refusal: Refusal)

  function AfterStore(before: Store, o: StoreOutcome): Store {
    if o.Done? then o.store else before
  }

  const WECHAT := "wechat_channels"

  predicate Wechat(platform: Option<string>) {
    platform == Some(WECHAT)
  }

  // ---------- Shared statements ----------

  function EnvsOf(grants: map<(string, string), Grant>, userId: string): set<string> {
    set k | k in grants && k.0 == userId :: k.1
  }

  function WithoutUser(grants: map<(string, string), Grant>, userId: string): map<(string, string), Grant> {
    map k | k in grants && k.0 != userId :: grants[k]
  }

  // The cleanup of a grant is admitted when the registry or the grant says wechat.
  predicate NeedsCleanup(s: Store, userId: string, envKey: string) {
    && (userId, envKey) in s.grants
    && (Wechat(s.grants[(userId, envKey)].platform)
        || (envKey in s.environments && Wechat(s.environments[envKey].platform)))
  }

  function AdmissionsFor(s: Store, userId: string, envKeys: seq<string>, reason: Reason, actor: Option<string>)
    : seq<Admission>
  {
    if envKeys == [] then []
    else
      var rest := AdmissionsFor(s, userId, envKeys[1..], reason, actor);
      if NeedsCleanup(s, userId, envKeys[0]) then [Admission(envKeys[0], userId, reason, actor, false)] + rest
      else rest
  }

  // enqueueAdmission for each, in order; without a configured target the first one throws.
  function EnqueueAll(t: Tables, admissions: seq<Admission>, target: Option<Target>, now: int): Option<Tables>
    decreases |admissions|
  {
    if admissions == [] then Some(t)
    else if target.None? then None
    else match Enqueue(t, admissions[0], target.value, now)
      case None => None
      case Some(next) => EnqueueAll(next, admissions[1..], target, now)
  }

  // INSERT ... SELECT from the user's grants, ON CONFLICT DO NOTHING.
  function AuditGrants(s: Store, userId: string, envKeys: set<string>, kept: set<string>, reason: Reason,
                       now: int, actor: Option<string>): map<AuditKey, AuditRow>
  {
    (map e | e in envKeys && (userId, e) in s.grants ::
      AuditKey(userId, e, s.grants[(userId, e)].assignedAt, if e in kept then ScopeReplaced else Revoked(reason))
        := AuditRow(s.grants[(userId, e)], now, actor))
    + s.audit
  }

  // INSERT into client_env_scope: the cleanup-hold trigger, then the one-owner index.
  datatype Insertion = Inserted(grants: map<(string, string), Grant>) | HoldTrips | IndexTrips

  predicate OwnedByOther(grants: map<(string, string), Grant>, userId: string, envKey: string) {
    exists k | k in grants :: k.1 == envKey && k.0 != userId
  }

  function InsertGrant(holds: map<string, Hold>, grants: map<(string, string), Grant>, userId: string,
                       envKey: string, grant: Grant): Insertion
  {
    if envKey in holds then HoldTrips
    else if OwnedByOther(grants, userId, envKey) then IndexTrips
    else Inserted(grants[(userId, envKey) := grant])
  }

  // ---------- setScope ----------

  function CleanKeys(items: seq<string>): set<string> {
    set i | i in items && Trim(i) != "" :: Trim(i)
  }

  function NewGrant(s: Store, envKey: string, actor: Option<string>, now: int): Grant
    requires envKey in s.environments
  {
    Grant(s.environments[envKey].labelText, s.environments[envKey].platform, actor, now)
  }

  function InsertAll(s: Store, holds: map<string, Hold>, grants: map<(string, string), Grant>, userId: string,
                     envKeys: seq<string>, actor: Option<string>, now: int): Insertion
    requires Members(envKeys) <= s.environments.Keys
    decreases |envKeys|
  {
    if envKeys == [] then Inserted(grants)
    else
      assert envKeys[0] in Members(envKeys) && Members(envKeys[1..]) <= Members(envKeys);
      match InsertGrant(holds, grants, userId, envKeys[0], NewGrant(s, envKeys[0], actor, now))
      case Inserted(next) => InsertAll(s, holds, next, userId, envKeys[1..], actor, now)
      case HoldTrips => HoldTrips
      case IndexTrips => IndexTrips
  }

  function HeldBy(s: Store, keys: set<string>): set<string> {
    set e | e in keys && e in s.tables.holds
  }

  function ForeignBy(s: Store, userId: string, keys: set<string>): set<string> {
    set e | e in keys && OwnedByOther(s.grants, userId, e)
  }

  // The checks before anything is written, in their order.
  function ScopeRefusal(s: Store, userId: string, clean: set<string>): (r: Option<Refusal>)
    ensures r.None? ==> clean <= s.environments.Keys
  {
    var unknown, held, foreign := clean - s.environments.Keys, HeldBy(s, clean), ForeignBy(s, userId, clean);
    if userId !in s.users then Some(NotFound)
    else if unknown != {} then Some(UnknownEnvironment(Least(unknown)))
    else if held != {} then
      var e := Least(held);
      Some(if s.tables.holds[e].materializedAt.Some? then OffboardInProgress(e) else CleanupInProgress(Some(e)))
    else if foreign != {} then Some(AlreadyAssigned(Some(Least(foreign))))
    else
      assert forall e | e in clean :: e !in unknown;
      None
  }

  function ReplaceScope(s: Store, userId: string, clean: set<string>, actor: Option<string>, target: Option<Target>,
                        now: int): StoreOutcome
    requires clean <= s.environments.Keys
  {
    var owned := EnvsOf(s.grants, userId);
    match EnqueueAll(s.tables, AdmissionsFor(s, userId, Sorted(owned - clean), AdminRevoked, actor), target, now)
    case None => Refused(Failed)
    case Some(tables) =>
      match InsertAll(s, tables.holds, WithoutUser(s.grants, userId), userId, Sorted(clean), actor, now)
      case HoldTrips => Refused(CleanupInProgress(None))
      case IndexTrips => Refused(AlreadyAssigned(None))
      case Inserted(grants) =>
        Done(s.(tables := tables, grants := grants,
                audit := AuditGrants(s, userId, owned, clean, AdminRevoked, now, actor)))
  }

  function SetScopeTx(s: Store, userId: string, items: seq<string>, actor: Option<string>, target: Option<Target>,
                      now: int): StoreOutcome
  {
    var clean := CleanKeys(items);
    match ScopeRefusal(s, userId, clean)
    case Some(refusal) => Refused(refusal)
    case None => ReplaceScope(s, userId, clean, actor, target, now)
  }

  // ---------- updateUser ----------

  predicate ValidName(name: string) {
    name != "" && Utf16Length(name) <= 64
  }

  predicate NameInUse(users: map<string, User>, userId: string, name: string) {
    exists u | u in users :: u != userId && users[u].name == name
  }

  // Disabling a customer revokes everything it owns.
  function RevokeAll(s: Store, userId: string, actor: Option<string>, target: Option<Target>, now: int): Option<Store> {
    var owned := EnvsOf(s.grants, userId);
    match EnqueueAll(s.tables, AdmissionsFor(s, userId, Sorted(owned), CustomerTerminated, actor), target, now)
    case None => None
    case Some(tables) =>
      Some(s.(tables := tables, grants := WithoutUser(s.grants, userId),
              audit := AuditGrants(s, userId, owned, {}, CustomerTerminated, now, actor)))
  }

  function UserWritten(s: Store, userId: string, name: string, enabled: bool, actor: Option<string>,
                       target: Option<Target>, now: int): StoreOutcome
    requires userId in s.users
  {
    match if s.users[userId].enabled && !enabled then RevokeAll(s, userId, actor, target, now) else Some(s)
    case None => Refused(Failed)
    case Some(next) => Done(next.(users := next.users[userId := User(name, enabled)]))
  }

  function UpdateUserTx(s: Store, userId: string, name: Option<string>, enable: Option<bool>, actor: Option<string>,
                        target: Option<Target>, now: int): StoreOutcome
  {
    if userId !in s.users then Refused(NotFound)
    else
      var current := s.users[userId];
      var newName := if name.Some? then Trim(name.value) else current.name;
      if name.Some? && !ValidName(newName) then Refused(InvalidName)
      else if name.Some? && NameInUse(s.users, userId, newName) then Refused(NameTaken)
      else UserWritten(s, userId, newName, enable.UnwrapOr(current.enabled), actor, target, now)
  }

  // ---------- beginEnvironmentOffboard ----------

  // The environment was provisioned by this customer and has been its own since.
  predicate SelfProvisioned(s: Store, userId: string, envKey: string, grant: Grant) {
    exists i | i in s.intents ::
      s.intents[i] == Completed(userId, envKey) && grant.assignedBy == Some("client-provision:" + i)
  }

  function BeginOffboardTx(s: Store, userId: string, envKey: string, bound: bool, target: Option<Target>, now: int)
    : StoreOutcome
  {
    var key := Trim(envKey);
    if userId == "" || key == "" then Refused(NotAuthorized)
    else if userId !in s.users then Refused(NotAuthorized)
    else if !s.users[userId].enabled then Refused(Disabled)
    else if (userId, key) !in s.grants then Refused(NotAuthorized)
    else if key !in s.environments || !Wechat(s.environments[key].platform) then Refused(Refusal.BindingMissing)
    else
      var grant := s.grants[(userId, key)];
      if !bound && !SelfProvisioned(s, userId, key, grant) then Refused(Refusal.BindingMissing)
      else
        var actor := Some("client:" + userId);
        match EnqueueAll(s.tables, [Admission(key, userId, EnvironmentUnbind, actor, !bound)], target, now)
        case None => Refused(Failed)
        case Some(tables) =>
          Done(s.(tables := tables, grants := s.grants - {(userId, key)},
                  audit := AuditGrants(s, userId, {key}, {}, EnvironmentUnbind, now, actor)))
  }

  // ---------- completeProvisioningIntent, the part that grants ----------

  function ProvisionTx(s: Store, userId: string, intentId: string, envKey: string, labelText: Option<string>,
                       platform: string, now: int): StoreOutcome
  {
    if userId !in s.users || !s.users[userId].enabled then Refused(Disabled)
    else if intentId !in s.intents || s.intents[intentId] != Pending(userId) then Refused(InvalidIntent)
    else if envKey in s.environments then Refused(AlreadyRegistered)
    else
      var grant := Grant(labelText, Some(platform), Some("client-provision:" + intentId), now);
      match InsertGrant(s.tables.holds, s.grants, userId, envKey, grant)
      case HoldTrips => Refused(Failed)
      case IndexTrips => Refused(AlreadyAssigned(None))
      case Inserted(grants) =>
        // a plain INSERT: the user's own row for the environment is a key conflict too
        if (userId, envKey) in s.grants then Refused(AlreadyAssigned(None)) else
        Done(s.(grants := grants,
                environments := s.environments[envKey := Environment(labelText, Some(platform))],
                intents := s.intents[intentId := Completed(userId, envKey)]))
  }

  // ---------- createUser, and registerEnvironments as far as ownership sees it ----------

  // `userId` is the random id drawn for the user; a clash is reported like a taken name.
  function CreateUserTx(s: Store, userId: string, name: string): StoreOutcome {
    if !ValidName(Trim(name)) then Refused(InvalidName)
    else if userId in s.users || exists u | u in s.users :: s.users[u].name == Trim(name) then Refused(NameTaken)
    else Done(s.(users := s.users[userId := User(Trim(name), true)]))
  }

  function RegisterRow(environments: map<string, Environment>, i: Environments.Item): map<string, Environment> {
    var row := if i.envKey in environments then environments[i.envKey] else Environment(None, None);
    environments[i.envKey := Environment(Environments.Coalesce(i.labelText, row.labelText),
                                         Environments.Coalesce(i.platform, row.platform))]
  }

  function RegisterRows(environments: map<string, Environment>, items: seq<Environments.Item>): map<string, Environment>
    decreases |items|
  {
    if items == [] then environments else RegisterRows(RegisterRow(environments, items[0]), items[1..])
  }

  function RegisterTx(s: Store, items: seq<Environments.Item>): StoreOutcome {
    Done(s.(environments := RegisterRows(s.environments, Environments.Clean(items, {}))))
  }

  // ---------- Any of them ----------

  datatype StoreOp =
    | SetScope(userId: string, items: seq<string>, actor: Option<string>, target: Option<Target>, now: int)
    | UpdateUser(userId: string, name: Option<string>, enable: Option<bool>, actor: Option<string>,
                 target: Option<Target>, now: int)
    | BeginOffboard(userId: string, envKey: string, bound: bool, target: Option<Target>, now: int)
    | Provision(userId: string, intentId: string, envKey: string, labelText: Option<string>, platform: string, now: int)
    | CreateUser(userId: string, newName: string)
    | RegisterEnvironments(registrations: seq<Environments.Item>)

  function Perform(s: Store, op: StoreOp): StoreOutcome {
    match op
    case SetScope(userId, items, actor, target, now) => SetScopeTx(s, userId, items, actor, target, now)
    case UpdateUser(userId, name, enable, actor, target, now) =>
      UpdateUserTx(s, userId, name, enable, actor, target, now)
    case BeginOffboard(userId, envKey, bound, target, now) => BeginOffboardTx(s, userId, envKey, bound, target, now)
    case Provision(userId, intentId, envKey, labelText, platform, now) =>
      ProvisionTx(s, userId, intentId, envKey, labelText, platform, now)
    case CreateUser(userId, newName) => CreateUserTx(s, userId, newName)
    case RegisterEnvironments(registrations) => RegisterTx(s, registrations)
  }
}
