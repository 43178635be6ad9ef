// The environment registry: registrations with their account bindings, the mirror
// this process keeps of it, and the projection other processes are sent.

module Environments {
  import opened Wrappers
  import opened Text
  import opened ConfigVersions

  // A row of client_environments, with its slow-start completion.
  datatype EnvRow = EnvRow(
    labelText: Option<string>, platform: Option<string>, lifecycle: string, accountId: Option<string>,
    since: Option<int>, completedAt: Option<int>)

  type Registry = map<string, EnvRow>

  // The administrator's rows of client_env_scope, as (user, environment).
  type Scope = set<(string, string)>

  const RETIRED := "default"
  const ACTIVE := "active"

  datatype Item = Item(envKey: string, labelText: Option<string>, platform: Option<string>, accountId: Option<string>)

  // ---------- registerEnvironments ----------

  function NonBlank(s: Option<string>): Option<string> {
    if s.Some? && Trim(s.value) != "" then Some(Trim(s.value)) else None
  }

  // A blank or retired account id is no observation.
  function BindingId(s: Option<string>): Option<string> {
    var id := NonBlank(s);
    if id == Some(RETIRED) then None else id
  }

  function CleanItem(i: Item): Item {
    Item(Trim(i.envKey), NonBlank(i.labelText), NonBlank(i.platform), BindingId(i.accountId))
  }

  // The first item of every key that is not blank.
  function Clean(items: seq<Item>, seen: set<string>): (r: seq<Item>)
    decreases |items|
  {
    if items == [] then []
    else
      var i := CleanItem(items[0]);
      if i.envKey == "" || i.envKey in seen then Clean(items[1..], seen)
      else [i] + Clean(items[1..], seen + {i.envKey})
  }

  function Coalesce(a: Option<string>, b: Option<string>): Option<string> {
    if a.Some? then a else b
  }

  // INSERT, or keep what the new row leaves out.
  function Upsert(reg: Registry, i: Item): Registry {
    reg[i.envKey :=
      if i.envKey in reg then
        reg[i.envKey].(labelText := Coalesce(i.labelText, reg[i.envKey].labelText),
                       platform := Coalesce(i.platform, reg[i.envKey].platform),
                       accountId := Coalesce(i.accountId, reg[i.envKey].accountId))
      else EnvRow(i.labelText, i.platform, ACTIVE, i.accountId, None, None)]
  }

  // At most one by a unique index; none for an environment nobody owns.
  function OwnersOf(scope: Scope, envKey: string): set<string> {
    set k | k in scope && k.1 == envKey :: k.0
  }

  // The account is bound to another environment whose owner is not this one's.
  predicate Conflicts(reg: Registry, scope: Scope, envKey: string, accountId: string) {
    exists e | e in reg ::
      e != envKey && reg[e].accountId == Some(accountId) && OwnersOf(scope, e) != OwnersOf(scope, envKey)
  }

  // A conflicting binding is dropped; label and platform are registered all the same.
  function RegisterOne(reg: Registry, scope: Scope, i: Item): Registry {
    if i.accountId.Some? && Conflicts(reg, scope, i.envKey, i.accountId.value) then Upsert(reg, i.(accountId := None))
    else Upsert(reg, i)
  }

  function RegisterAll(reg: Registry, scope: Scope, items: seq<Item>): Registry
    decreases |items|
  {
    if items == [] then reg else RegisterAll(RegisterOne(reg, scope, items[0]), scope, items[1..])
  }

  predicate HasBinding(items: seq<Item>) {
    exists i | i in items :: i.accountId.Some?
  }

  // ---------- Grouping by account ----------

  datatype Entry = Entry(envKey: string, since: Option<int>, completedAt: Option<int>)

  function EntryOf(reg: Registry, envKey: string): Entry
    requires envKey in reg
  {
    Entry(envKey, reg[envKey].since, reg[envKey].completedAt)
  }

  // The environments among `keys` bound to the account.
  function BoundTo(reg: Registry, keys: set<string>, accountId: string): set<string> {
    set e | e in keys && e in reg && BindingId(reg[e].accountId) == Some(accountId)
  }

  function EntriesOf(reg: Registry, keys: set<string>, accountId: string): (r: seq<Entry>)
    ensures |r| == |BoundTo(reg, keys, accountId)|
  {
    var bound := Sorted(BoundTo(reg, keys, accountId));
    assert forall i | 0 <= i < |bound| :: bound[i] in Members(bound);
    seq(|bound|, i requires 0 <= i < |bound| => EntryOf(reg, bound[i]))
  }

  ghost predicate GroupsBy(grouped: map<string, seq<Entry>>, reg: Registry, keys: set<string>) {
    && (forall a :: a in grouped <==> EntriesOf(reg, keys, a) != [])
    && (forall a | a in grouped :: grouped[a] == EntriesOf(reg, keys, a))
  }

  lemma SortedSnoc(s: set<string>, k: string)
    requires k !in s && forall j | j in s :: Less(j, k)
    ensures Sorted(s + {k}) == Sorted(s) + [k]
  {
    hide Sorted, Less;
    var ks := Sorted(s) + [k];
    SortedIncreasing(s);
    forall i | 0 <= i < |s| ensures Less(Sorted(s)[i], k) {
      assert Sorted(s)[i] in Members(Sorted(s));
    }
    assert Increasing(ks);
    assert Members(ks) == s + {k} by {
      hide Increasing;
      assert Members(ks) == Members(Sorted(s)) + {k} by { MembersSnoc(Sorted(s), k); }
    }
    SortedUnique(ks);
  }

  lemma MembersSnoc(ks: seq<string>, k: string)
    ensures Members(ks + [k]) == Members(ks) + {k}
  {
    assert forall j :: j in ks + [k] <==> j in ks || j == k;
  }

  // One more row, later in the order than all before.
  lemma GroupOneMore(reg: Registry, keys: set<string>, k: string, accountId: string)
    requires k in reg && k !in keys && forall j | j in keys :: Less(j, k)
    ensures EntriesOf(reg, keys + {k}, accountId)
         == if BindingId(reg[k].accountId) == Some(accountId) then EntriesOf(reg, keys, accountId) + [EntryOf(reg, k)]
            else EntriesOf(reg, keys, accountId)
  {
    hide BindingId, Sorted, Less, Members;
    var before, after := BoundTo(reg, keys, accountId), BoundTo(reg, keys + {k}, accountId);
    if BindingId(reg[k].accountId) == Some(accountId) {
      assert after == before + {k};
      SortedSnoc(before, k);
    } else {
      assert after == before;
    }
  }

  function Grouped(grouped: map<string, seq<Entry>>, reg: Registry, k: string): map<string, seq<Entry>>
    requires k in reg
  {
    match BindingId(reg[k].accountId)
    case None => grouped
    case Some(a) => grouped[a := (if a in grouped then grouped[a] else []) + [EntryOf(reg, k)]]
  }

  lemma GroupsOneMore(grouped: map<string, seq<Entry>>, reg: Registry, keys: set<string>, k: string)
    requires GroupsBy(grouped, reg, keys)
    requires k in reg && k !in keys && forall j | j in keys :: Less(j, k)
    ensures GroupsBy(Grouped(grouped, reg, k), reg, keys + {k})
  {
    hide BindingId, Less, EntriesOf;
    forall a
      ensures EntriesOf(reg, keys + {k}, a)
           == if BindingId(reg[k].accountId) == Some(a) then EntriesOf(reg, keys, a) + [EntryOf(reg, k)]
              else EntriesOf(reg, keys, a)
    {
      GroupOneMore(reg, keys, k, a);
    }
  }

  // The loop both readers run over the rows, in the order of their keys.
  method GroupByAccount(reg: Registry, keys: set<string>) returns (grouped: map<string, seq<Entry>>)
    requires keys <= reg.Keys
    ensures GroupsBy(grouped, reg, keys)
  {
    hide BindingId, GroupsBy, Sorted, Less;
    var rows := Sorted(keys);
    SortedIncreasing(keys);
    grouped := map[];
    NoGroups(reg);
    assert rows[..0] == [];
    for n := 0 to |rows|
      invariant GroupsBy(grouped, reg, Members(rows[..n]))
    {
      var k := rows[n];
      assert k in Members(rows);
      KeysBefore(rows, n);
      GroupsOneMore(grouped, reg, Members(rows[..n]), k);
      assert rows[..n + 1] == rows[..n] + [k];
      MembersSnoc(rows[..n], k);
      var accountId := BindingId(reg[k].accountId);
      if accountId.Some? {
        var values := if accountId.value in grouped then grouped[accountId.value] else [];
        grouped := grouped[accountId.value := values + [EntryOf(reg, k)]];
      }
    }
    assert rows[..|rows|] == rows;
  }

  lemma NoGroups(reg: Registry)
    ensures GroupsBy(map[], reg, Members([]))
  {
    hide Sorted, BindingId;
    forall a ensures EntriesOf(reg, Members([]), a) == [] { assert BoundTo(reg, Members([]), a) == {}; }
  }

  lemma KeysBefore(rows: seq<string>, n: nat)
    requires Increasing(rows) && n < |rows|
    ensures rows[n] !in Members(rows[..n]) && forall j | j in Members(rows[..n]) :: Less(j, rows[n])
  {
    hide Less;
    LessIrreflexive(rows[n]);
    assert forall j | j in Members(rows[..n]) :: exists i :: 0 <= i < n && rows[i] == j;
  }

  // ---------- The published projection ----------

  datatype Anchor = Anchor(envKey: Option<string>, since: Option<int>, completedAt: Option<int>, ambiguous: bool)

  datatype Projection = Projection(blocked: seq<string>, anchors: map<string, Anchor>)

  function AnchorOf(values: seq<Entry>): Anchor {
    if |values| == 1 then Anchor(Some(values[0].envKey), values[0].since, values[0].completedAt, false)
    else Anchor(None, None, None, true)
  }

  function BlockedKeys(reg: Registry): set<string> {
    set e | e in reg && reg[e].lifecycle != ACTIVE
  }

  ghost predicate IsProjection(p: Projection, reg: Registry) {
    && p.blocked == Sorted(BlockedKeys(reg))
    && (forall a :: a in p.anchors <==> EntriesOf(reg, reg.Keys, a) != [])
    && (forall a | a in p.anchors :: p.anchors[a] == AnchorOf(EntriesOf(reg, reg.Keys, a)))
  }

  method ProjectSnapshot(reg: Registry) returns (p: Projection)
    ensures IsProjection(p, reg)
  {
    hide EntriesOf, AnchorOf, Sorted;
    var grouped := GroupByAccount(reg, reg.Keys);
    p := Projection(Sorted(BlockedKeys(reg)), map a | a in grouped :: AnchorOf(grouped[a]));
  }

  // ---------- The mirror of this process ----------

  function LowerChar(c: char): char {
    if 'A' <= c <= 'Z' then (c as int + 32) as char else c
  }

  function Lower(s: string): (r: string)
    ensures |r| == |s|
  {
    seq(|s|, i requires 0 <= i < |s| => LowerChar(s[i]))
  }

  // `btrim` strips blanks only.
  function BTrim(s: string): string {
    if s != "" && s[0] == ' ' then BTrim(s[1..])
    else if s != "" && s[|s| - 1] == ' ' then BTrim(s[..|s| - 1])
    else s
  }

  predicate Facebook(platform: Option<string>) {
    var p := Lower(BTrim(platform.UnwrapOr("")));
    p == "facebook" || p == "fb"
  }

  function MirroredKeys(reg: Registry): (keys: set<string>)
    ensures keys <= reg.Keys
  {
    set e | e in reg && reg[e].accountId.Some? && reg[e].lifecycle == ACTIVE && Facebook(reg[e].platform)
  }

  datatype Mirror = Mirror(
    since: map<string, Option<int>>, completedAt: map<string, Option<int>>, ambiguous: set<string>,
    envKeys: map<string, string>, ambiguousKeys: set<string>)

  // What the mirror says of an account with these environments: it resolves a single
  // one, unless several customers own it, and calls several ambiguous.
  predicate MirrorsAccount(m: Mirror, a: string, entries: seq<Entry>, scope: Scope) {
    && (a in m.since <==> |entries| == 1)
    && (a in m.completedAt <==> |entries| == 1)
    && (a in m.ambiguous <==> |entries| > 1)
    && (a in m.envKeys <==> |entries| == 1 && |OwnersOf(scope, entries[0].envKey)| <= 1)
    && (a in m.ambiguousKeys <==> |entries| > 1 || (|entries| == 1 && |OwnersOf(scope, entries[0].envKey)| > 1))
    && (a in m.since ==> m.since[a] == entries[0].since && m.completedAt[a] == entries[0].completedAt)
    && (a in m.envKeys ==> m.envKeys[a] == entries[0].envKey)
  }

  ghost predicate IsMirror(m: Mirror, reg: Registry, scope: Scope) {
    forall a :: MirrorsAccount(m, a, EntriesOf(reg, MirroredKeys(reg), a), scope)
  }

  // With the accounts `done` gone through.
  ghost predicate MirrorsDone(m: Mirror, grouped: map<string, seq<Entry>>, done: set<string>, scope: Scope) {
    forall a :: MirrorsAccount(m, a, if a in done && a in grouped then grouped[a] else [], scope)
  }

  function MirrorWith(m: Mirror, a: string, entries: seq<Entry>, scope: Scope): Mirror {
    if |entries| != 1 then m.(ambiguous := m.ambiguous + {a}, ambiguousKeys := m.ambiguousKeys + {a})
    else
      var contended := |OwnersOf(scope, entries[0].envKey)| > 1;
      Mirror(m.since[a := entries[0].since], m.completedAt[a := entries[0].completedAt], m.ambiguous,
             if contended then m.envKeys else m.envKeys[a := entries[0].envKey],
             if contended then m.ambiguousKeys + {a} else m.ambiguousKeys)
  }

  lemma MirrorsOneMore(m: Mirror, grouped: map<string, seq<Entry>>, done: set<string>, a: string, scope: Scope)
    requires MirrorsDone(m, grouped, done, scope) && a in grouped && a !in done && grouped[a] != []
    ensures MirrorsDone(MirrorWith(m, a, grouped[a], scope), grouped, done + {a}, scope)
  {
    hide OwnersOf;
    var m' := MirrorWith(m, a, grouped[a], scope);
    assert MirrorsAccount(m, a, [], scope);
    forall b ensures MirrorsAccount(m', b, if b in done + {a} && b in grouped then grouped[b] else [], scope) {
      assert MirrorsAccount(m, b, if b in done && b in grouped then grouped[b] else [], scope);
    }
  }

  lemma GroupsAreInhabited(grouped: map<string, seq<Entry>>, reg: Registry, keys: set<string>)
    requires GroupsBy(grouped, reg, keys)
    ensures forall a | a in grouped :: grouped[a] != []
  {
    hide EntriesOf;
  }

  lemma MirrorsNone(grouped: map<string, seq<Entry>>, scope: Scope)
    ensures MirrorsDone(Mirror(map[], map[], {}, map[], {}), grouped, {}, scope)
  {
  }

  lemma MirrorDone(m: Mirror, grouped: map<string, seq<Entry>>, reg: Registry, scope: Scope)
    requires GroupsBy(grouped, reg, MirroredKeys(reg)) && MirrorsDone(m, grouped, grouped.Keys, scope)
    ensures IsMirror(m, reg, scope)
  {
    hide EntriesOf, MirroredKeys, MirrorsAccount;
    forall a ensures MirrorsAccount(m, a, EntriesOf(reg, MirroredKeys(reg), a), scope) {
      assert MirrorsAccount(m, a, if a in grouped.Keys && a in grouped then grouped[a] else [], scope);
    }
  }

  class EnvironmentStore {
    var registry: Registry
    var scope: Scope
    var versions: Versions
    var environmentSlowStartByAccount: map<string, Option<int>>
    var environmentSlowStartCompletedByAccount: map<string, Option<int>>
    var ambiguousEnvironmentAccounts: set<string>
    var environmentKeyByAccount: map<string, string>
    var ambiguousEnvironmentKeyAccounts: set<string>

    function Mirrored(): Mirror
      reads this
    {
      Mirror(environmentSlowStartByAccount, environmentSlowStartCompletedByAccount, ambiguousEnvironmentAccounts,
             environmentKeyByAccount, ambiguousEnvironmentKeyAccounts)
    }

    // `refreshEnvironmentSlowStartMirror`
    method RefreshMirror()
      modifies this`environmentSlowStartByAccount, this`environmentSlowStartCompletedByAccount,
               this`ambiguousEnvironmentAccounts, this`environmentKeyByAccount, this`ambiguousEnvironmentKeyAccounts
      ensures IsMirror(Mirrored(), registry, scope)
    {
      hide EntriesOf, MirroredKeys, OwnersOf, MirrorsDone, IsMirror, GroupsBy;
      var grouped := GroupByAccount(registry, MirroredKeys(registry));
      var next, completed, envKeys := map[], map[], map[];
      var ambiguous, ambiguousKeys := {}, {};
      var left := grouped.Keys;
      MirrorsNone(grouped, scope);
      assert grouped.Keys - left == {};
      while left != {}
        invariant left <= grouped.Keys
        invariant MirrorsDone(Mirror(next, completed, ambiguous, envKeys, ambiguousKeys), grouped,
                              grouped.Keys - left, scope)
        decreases |left|
      {
        var accountId :| accountId in left;
        GroupsAreInhabited(grouped, registry, MirroredKeys(registry));
        MirrorsOneMore(Mirror(next, completed, ambiguous, envKeys, ambiguousKeys), grouped, grouped.Keys - left,
                       accountId, scope);
        assert grouped.Keys - (left - {accountId}) == grouped.Keys - left + {accountId};
        left := left - {accountId};
        var entries := grouped[accountId];
        if |entries| == 1 {
          next := next[accountId := entries[0].since];
          completed := completed[accountId := entries[0].completedAt];
          if |OwnersOf(scope, entries[0].envKey)| > 1 {
            ambiguousKeys := ambiguousKeys + {accountId};
          } else {
            envKeys := envKeys[accountId := entries[0].envKey];
          }
        } else {
          ambiguous := ambiguous + {accountId};
          ambiguousKeys := ambiguousKeys + {accountId};
        }
      }
      assert grouped.Keys - left == grouped.Keys;
      MirrorDone(Mirror(next, completed, ambiguous, envKeys, ambiguousKeys), grouped, registry, scope);
      environmentSlowStartByAccount := next;
      environmentSlowStartCompletedByAccount := completed;
      ambiguousEnvironmentAccounts := ambiguous;
      environmentKeyByAccount := envKeys;
      ambiguousEnvironmentKeyAccounts := ambiguousKeys;
    }

    // Without a binding among the items, plain upserts; with one, a transaction that
    // bumps the slow-start version and then a refresh of the mirror.
    method RegisterEnvironments(items: seq<Item>) returns (count: nat)
      modifies this
      ensures registry == RegisterAll(old(registry), scope, Clean(items, {}))
      ensures scope == old(scope) && count == |Clean(items, {})|
      ensures if HasBinding(Clean(items, {})) then
                versions == Bumped(old(versions), ClientEnvironmentSlowStart) && IsMirror(Mirrored(), registry, scope)
              else versions == old(versions) && Mirrored() == old(Mirrored())
    {
      hide Clean, HasBinding, Conflicts, Upsert, IsMirror;
      var clean := Clean(items, {});
      if clean == [] {
        NoItems(registry, scope);
        return 0;
      }
      if !HasBinding(clean) {
        for n := 0 to |clean|
          invariant RegisterAll(registry, scope, clean[n..]) == RegisterAll(old(registry), scope, clean)
          invariant unchanged(this`scope) && versions == old(versions) && Mirrored() == old(Mirrored())
        {
          UnboundItem(clean, n);
          assert clean[n..][1..] == clean[n + 1..];
          registry := Upsert(registry, clean[n]);
        }
      } else {
        for n := 0 to |clean|
          invariant RegisterAll(registry, scope, clean[n..]) == RegisterAll(old(registry), scope, clean)
          invariant unchanged(this`scope) && versions == old(versions)
        {
          assert clean[n..][1..] == clean[n + 1..];
          var i := clean[n];
          if i.accountId.Some? && Conflicts(registry, scope, i.envKey, i.accountId.value) {
            i := i.(accountId := None);
          }
          registry := Upsert(registry, i);
        }
        versions := Bumped(versions, ClientEnvironmentSlowStart);
        RefreshMirror();
      }
      count := |clean|;
    }
  }

  lemma NoItems(reg: Registry, scope: Scope)
    ensures RegisterAll(reg, scope, []) == reg
    ensures !HasBinding([])
  {
  }

  lemma UnboundItem(items: seq<Item>, n: nat)
    requires !HasBinding(items) && n < |items|
    ensures items[n].accountId.None?
  {
    assert items[n] in items;
  }
}
