// The mirror of this process and the published projection never name different
// environments, and what changes the projection bumps a version of its stream.

module SlowStart {
  import opened Wrappers
  import opened Text
  import opened ConfigVersions
  import opened Environments
  import opened Registrations

  lemma EntriesCome(reg: Registry, keys: set<string>, a: string, i: nat)
    requires i < |EntriesOf(reg, keys, a)|
    ensures var e := EntriesOf(reg, keys, a)[i]; e.envKey in BoundTo(reg, keys, a) && e == EntryOf(reg, e.envKey)
  {
    hide Sorted, BindingId;
    var bound := Sorted(BoundTo(reg, keys, a));
    assert bound[i] in Members(bound);
  }

  // Every mirrored environment of the account is among those the projection counts.
  lemma SingleOfMore(reg: Registry, keys: set<string>, more: set<string>, a: string)
    requires keys <= more && EntriesOf(reg, keys, a) != [] && |EntriesOf(reg, more, a)| == 1
    ensures EntriesOf(reg, keys, a) == EntriesOf(reg, more, a)
  {
    hide Sorted, BindingId;
    EntriesCome(reg, keys, a, 0);
    EntriesCome(reg, more, a, 0);
    var e, f := EntriesOf(reg, keys, a)[0].envKey, EntriesOf(reg, more, a)[0].envKey;
    assert BoundTo(reg, more, a) == {f} by { SingletonSet(BoundTo(reg, more, a), f); }
    assert BoundTo(reg, keys, a) <= BoundTo(reg, more, a) && e in BoundTo(reg, keys, a);
    assert BoundTo(reg, keys, a) == BoundTo(reg, more, a);
  }

  lemma SingletonSet(s: set<string>, x: string)
    requires x in s && |s| == 1
    ensures s == {x}
  {
    assert |s - {x}| == 0;
    assert s == (s - {x}) + {x};
  }

  // Whenever both resolve an environment for an account they agree on its key, start
  // and completion; what the mirror knows of, the projection names or calls ambiguous.
  predicate Agree(m: Mirror, p: Projection, a: string) {
    && (a in m.since || a in m.ambiguous ==> a in p.anchors)
    && (a in m.since ==> a in m.completedAt)
    && (a in m.envKeys ==> a in m.since)
    && (a in m.ambiguous && a in p.anchors ==> p.anchors[a].ambiguous)
    && (a in m.since && a in p.anchors && a in m.completedAt && !p.anchors[a].ambiguous ==>
          && p.anchors[a].since == m.since[a]
          && p.anchors[a].completedAt == m.completedAt[a]
          && (a in m.envKeys ==> p.anchors[a].envKey == Some(m.envKeys[a])))
  }

  lemma MirrorAndProjectionAgree(m: Mirror, p: Projection, reg: Registry, scope: Scope, a: string)
    requires IsMirror(m, reg, scope) && IsProjection(p, reg)
    ensures Agree(m, p, a)
  {
    hide EntriesOf, MirroredKeys, OwnersOf, BlockedKeys, Sorted;
    var mine, all := EntriesOf(reg, MirroredKeys(reg), a), EntriesOf(reg, reg.Keys, a);
    assert MirrorsAccount(m, a, mine, scope);
    if mine != [] {
      MoreEntries(reg, MirroredKeys(reg), reg.Keys, a);
      if |all| == 1 { SingleOfMore(reg, MirroredKeys(reg), reg.Keys, a); }
    }
  }

  lemma MoreEntries(reg: Registry, keys: set<string>, more: set<string>, a: string)
    requires keys <= more
    ensures |EntriesOf(reg, keys, a)| <= |EntriesOf(reg, more, a)|
  {
    hide Sorted, BindingId;
    var s, t := BoundTo(reg, keys, a), BoundTo(reg, more, a);
    assert t == s + (t - s);
  }

  // ---------- Registrations ----------

  // Nothing the projection reads differs: new rows are active and unbound.
  ghost predicate SameBindings(reg: Registry, reg': Registry) {
    && reg.Keys <= reg'.Keys
    && (forall e | e in reg ::
          && reg'[e].lifecycle == reg[e].lifecycle && reg'[e].accountId == reg[e].accountId
          && reg'[e].since == reg[e].since && reg'[e].completedAt == reg[e].completedAt)
    && (forall e | e in reg' && e !in reg :: reg'[e].lifecycle == ACTIVE && reg'[e].accountId.None?)
  }

  lemma {:induction false} UnboundRegistrations(reg: Registry, scope: Scope, items: seq<Item>)
    requires !HasBinding(items)
    ensures SameBindings(reg, RegisterAll(reg, scope, items))
    decreases |items|
  {
    hide Conflicts;
    if items != [] {
      UnboundItem(items, 0);
      assert !HasBinding(items[1..]) by { assert forall i | i in items[1..] :: i in items; }
      UnboundRegistrations(RegisterOne(reg, scope, items[0]), scope, items[1..]);
    }
  }

  lemma SameBindingsSameEntries(reg: Registry, reg': Registry, a: string)
    requires SameBindings(reg, reg')
    ensures EntriesOf(reg', reg'.Keys, a) == EntriesOf(reg, reg.Keys, a)
    ensures BlockedKeys(reg') == BlockedKeys(reg)
  {
    hide Sorted, Trim;
    assert BoundTo(reg', reg'.Keys, a) == BoundTo(reg, reg.Keys, a);
    var bound := Sorted(BoundTo(reg, reg.Keys, a));
    assert forall i | 0 <= i < |bound| :: bound[i] in Members(bound);
    var x, y := EntriesOf(reg', reg'.Keys, a), EntriesOf(reg, reg.Keys, a);
    forall i | 0 <= i < |bound| ensures x[i] == y[i] {
      assert bound[i] in BoundTo(reg, reg.Keys, a);
    }
  }

  // The path that bumps no version leaves the published projection as it was.
  lemma UnboundLeavesProjection(reg: Registry, scope: Scope, items: seq<Item>, p: Projection)
    requires !HasBinding(items)
    ensures IsProjection(p, reg) <==> IsProjection(p, RegisterAll(reg, scope, items))
  {
    hide EntriesOf, BlockedKeys, AnchorOf, RegisterAll, Sorted, HasBinding, SameBindings;
    var reg' := RegisterAll(reg, scope, items);
    UnboundRegistrations(reg, scope, items);
    forall a
      ensures EntriesOf(reg', reg'.Keys, a) == EntriesOf(reg, reg.Keys, a) && BlockedKeys(reg') == BlockedKeys(reg)
    {
      SameBindingsSameEntries(reg, reg', a);
    }
    assert BlockedKeys(reg') == BlockedKeys(reg) by { SameBindingsSameEntries(reg, reg', ""); }
  }

  // ---------- What an unbumped registration does to the mirror ----------

  // What a mirror holds of an account with these environments; a single one that
  // several customers own is held without its key.
  datatype Shown = Absent | Ambiguous | Resolved(since: Option<int>, completedAt: Option<int>, envKey: Option<string>)

  function ShownOf(entries: seq<Entry>, scope: Scope): Shown {
    if entries == [] then Absent
    else if |entries| > 1 then Ambiguous
    else
      var e := entries[0];
      Resolved(e.since, e.completedAt, if |OwnersOf(scope, e.envKey)| > 1 then None else Some(e.envKey))
  }

  function Mirrored(reg: Registry, accountId: string): seq<Entry> {
    EntriesOf(reg, MirroredKeys(reg), accountId)
  }

  // A mirror determines what it shows of an account, and is determined by it.
  lemma MirrorsWhatIsShown(m: Mirror, a: string, entries: seq<Entry>, others: seq<Entry>, scope: Scope)
    requires MirrorsAccount(m, a, entries, scope)
    ensures MirrorsAccount(m, a, others, scope) <==> ShownOf(entries, scope) == ShownOf(others, scope)
  {
    hide OwnersOf;
  }

  // A mirror of one registry is one of another exactly when all accounts show the same.
  lemma SameMirrorIff(m: Mirror, reg: Registry, reg': Registry, scope: Scope)
    requires IsMirror(m, reg, scope)
    ensures IsMirror(m, reg', scope) <==>
      forall a :: ShownOf(Mirrored(reg, a), scope) == ShownOf(Mirrored(reg', a), scope)
  {
    hide EntriesOf, MirroredKeys, MirrorsAccount, ShownOf;
    forall a
      ensures MirrorsAccount(m, a, Mirrored(reg', a), scope)
         <==> ShownOf(Mirrored(reg, a), scope) == ShownOf(Mirrored(reg', a), scope)
    {
      assert MirrorsAccount(m, a, EntriesOf(reg, MirroredKeys(reg), a), scope);
      MirrorsWhatIsShown(m, a, Mirrored(reg, a), Mirrored(reg', a), scope);
    }
    if IsMirror(m, reg', scope) {
      forall a ensures ShownOf(Mirrored(reg, a), scope) == ShownOf(Mirrored(reg', a), scope) {
        assert MirrorsAccount(m, a, EntriesOf(reg', MirroredKeys(reg'), a), scope);
      }
    }
    if forall a :: ShownOf(Mirrored(reg, a), scope) == ShownOf(Mirrored(reg', a), scope) {
      forall a ensures MirrorsAccount(m, a, EntriesOf(reg', MirroredKeys(reg'), a), scope) {
        assert ShownOf(Mirrored(reg, a), scope) == ShownOf(Mirrored(reg', a), scope);
      }
    }
  }

  // The item names a platform that answers the mirror's question otherwise than the
  // stored one, for an active, bound environment.
  predicate Flips(reg: Registry, i: Item) {
    && i.envKey in reg && reg[i.envKey].lifecycle == ACTIVE && reg[i.envKey].accountId.Some?
    && i.platform.Some? && Facebook(i.platform) != Facebook(reg[i.envKey].platform)
  }

  // The platform a registration leaves an environment with.
  lemma {:induction false} PlatformAfter(reg: Registry, scope: Scope, items: seq<Item>, e: string)
    requires !HasBinding(items) && DistinctKeys(items) && e in reg
    ensures var reg' := RegisterAll(reg, scope, items);
      && e in reg'
      && (forall i | i in items && i.envKey == e :: reg'[e].platform == Coalesce(i.platform, reg[e].platform))
      && ((forall i | i in items :: i.envKey != e) ==> reg'[e].platform == reg[e].platform)
    decreases |items|
  {
    hide Conflicts;
    if items != [] {
      UnboundItem(items, 0);
      assert items == [items[0]] + items[1..];
      PlatformAfter(RegisterOne(reg, scope, items[0]), scope, items[1..], e);
      assert forall i | i in items[1..] :: i in items && i.envKey != items[0].envKey by {
        assert forall n | 0 <= n < |items| - 1 :: items[1..][n] == items[n + 1];
      }
    }
  }

  // An environment enters or leaves the mirror exactly when an item flips it.
  lemma MirroredAfter(reg: Registry, scope: Scope, items: seq<Item>, e: string)
    requires !HasBinding(items) && DistinctKeys(items)
    ensures (e in MirroredKeys(reg) <==> e in MirroredKeys(RegisterAll(reg, scope, items)))
       <==> !(exists i | i in items :: i.envKey == e && Flips(reg, i))
  {
    hide RegisterAll, Facebook, HasBinding, DistinctKeys;
    UnboundRegistrations(reg, scope, items);
    if e in reg {
      PlatformAfter(reg, scope, items, e);
      if i :| i in items && i.envKey == e && !Flips(reg, i) {
        OneItemPerKey(items, i);
      }
    }
  }

  lemma OneItemPerKey(items: seq<Item>, i: Item)
    requires DistinctKeys(items) && i in items
    ensures forall j | j in items && j.envKey == i.envKey :: j == i
  {
  }

  // Registrations that flip no bound, active environment leave every mirror a mirror.
  lemma UnboundKeepsMirror(reg: Registry, scope: Scope, items: seq<Item>, m: Mirror)
    requires !HasBinding(items) && DistinctKeys(items)
    requires forall i | i in items :: !Flips(reg, i)
    ensures IsMirror(m, reg, scope) <==> IsMirror(m, RegisterAll(reg, scope, items), scope)
  {
    hide RegisterAll, EntriesOf, MirroredKeys, MirrorsAccount, Flips, HasBinding, DistinctKeys, SameBindings;
    var reg' := RegisterAll(reg, scope, items);
    UnboundRegistrations(reg, scope, items);
    forall e ensures e in MirroredKeys(reg) <==> e in MirroredKeys(reg') { MirroredAfter(reg, scope, items, e); }
    assert MirroredKeys(reg') == MirroredKeys(reg);
    forall a ensures EntriesOf(reg', MirroredKeys(reg'), a) == EntriesOf(reg, MirroredKeys(reg), a) {
      SameMirroredSameEntries(reg, reg', MirroredKeys(reg), a);
    }
  }

  lemma SameMirroredSameEntries(reg: Registry, reg': Registry, keys: set<string>, a: string)
    requires SameBindings(reg, reg') && keys <= reg.Keys
    ensures EntriesOf(reg', keys, a) == EntriesOf(reg, keys, a)
  {
    hide Sorted, Trim;
    assert BoundTo(reg', keys, a) == BoundTo(reg, keys, a);
    var bound := Sorted(BoundTo(reg, keys, a));
    assert forall i | 0 <= i < |bound| :: bound[i] in Members(bound);
    var x, y := EntriesOf(reg', keys, a), EntriesOf(reg, keys, a);
    forall i | 0 <= i < |bound| ensures x[i] == y[i] {
      assert bound[i] in BoundTo(reg, keys, a);
    }
  }

  // An account whose mirrored environments a registration makes more or fewer shows
  // otherwise exactly unless it had, and still has, several.
  lemma ChangeOfNumberShows(reg: Registry, scope: Scope, items: seq<Item>, a: string)
    requires var reg' := RegisterAll(reg, scope, items); |Mirrored(reg, a)| != |Mirrored(reg', a)|
    ensures var reg' := RegisterAll(reg, scope, items);
      ShownOf(Mirrored(reg, a), scope) != ShownOf(Mirrored(reg', a), scope)
      <==> |Mirrored(reg, a)| <= 1 || |Mirrored(reg', a)| <= 1
  {
  }

  // So one flip of an account's environments is seen, whatever the two platforms are,
  // unless several others are mirrored with it: before it or after it the account is
  // resolved or absent, and no mirror of the one state is a mirror of the other.
  lemma FlipChangesMirror(reg: Registry, scope: Scope, items: seq<Item>, i: Item, a: string, m: Mirror)
    requires !HasBinding(items) && DistinctKeys(items) && i in items && Flips(reg, i)
    requires BindingId(reg[i.envKey].accountId) == Some(a)
    requires forall j | j in items && j != i && Flips(reg, j) :: BindingId(reg[j.envKey].accountId) != Some(a)
    requires IsMirror(m, reg, scope)
    ensures |Mirrored(RegisterAll(reg, scope, items), a)| == |Mirrored(reg, a)| + if Facebook(i.platform) then 1 else -1
    ensures |Mirrored(reg, a)| + (if Facebook(i.platform) then 0 else -1) <= 1 ==>
              !IsMirror(m, RegisterAll(reg, scope, items), scope)
  {
    hide RegisterAll, EntriesOf, Facebook, HasBinding, DistinctKeys, BindingId, ShownOf;
    var reg', e := RegisterAll(reg, scope, items), i.envKey;
    UnboundRegistrations(reg, scope, items);
    var before, after := BoundTo(reg, MirroredKeys(reg), a), BoundTo(reg', MirroredKeys(reg'), a);
    forall x | x != e ensures x in before <==> x in after {
      OthersStay(reg, scope, items, i, a, x);
    }
    MirroredAfter(reg, scope, items, e);
    if Facebook(i.platform) {
      assert after == before + {e} && e !in before;
    } else {
      assert before == after + {e} && e !in after;
    }
    if |Mirrored(reg, a)| <= 1 || |Mirrored(reg', a)| <= 1 {
      ChangeOfNumberShows(reg, scope, items, a);
      SameMirrorIff(m, reg, reg', scope);
    }
  }

  lemma OthersStay(reg: Registry, scope: Scope, items: seq<Item>, i: Item, a: string, x: string)
    requires !HasBinding(items) && DistinctKeys(items) && i in items && x != i.envKey
    requires forall j | j in items && j != i && Flips(reg, j) :: BindingId(reg[j.envKey].accountId) != Some(a)
    ensures var reg' := RegisterAll(reg, scope, items);
      x in BoundTo(reg, MirroredKeys(reg), a) <==> x in BoundTo(reg', MirroredKeys(reg'), a)
  {
    hide RegisterAll, Facebook, HasBinding, DistinctKeys, BindingId;
    UnboundRegistrations(reg, scope, items);
    MirroredAfter(reg, scope, items, x);
  }

  // For one, a registration that fills in the platform of a bound environment makes the
  // mirror resolve its account, without a version telling other processes to refresh.
  lemma UnboundCanChangeMirror(reg: Registry, scope: Scope, e: string, a: string, m: Mirror, m': Mirror)
    requires e in reg && BoundTo(reg, reg.Keys, a) == {e}
    requires reg[e].platform.None? && reg[e].lifecycle == ACTIVE
    requires IsMirror(m, reg, scope)
    requires IsMirror(m', RegisterAll(reg, scope, [Item(e, None, Some("facebook"), None)]), scope)
    ensures !HasBinding([Item(e, None, Some("facebook"), None)])
    ensures a !in m.since && a in m'.since
  {
    hide Sorted, Trim, OwnersOf, Facebook, EntriesOf;
    var items := [Item(e, None, Some("facebook"), None)];
    var reg' := Upsert(reg, items[0]);
    assert RegisterAll(reg, scope, items) == reg' by { assert items[1..] == []; }
    assert e in BoundTo(reg, reg.Keys, a);
    Platforms();
    assert BoundTo(reg, MirroredKeys(reg), a) <= BoundTo(reg, reg.Keys, a) == {e};
    assert e !in MirroredKeys(reg);
    assert BoundTo(reg', MirroredKeys(reg'), a) == {e} by {
      forall x | x in BoundTo(reg', MirroredKeys(reg'), a) ensures x == e {
        assert x != e ==> x in BoundTo(reg, reg.Keys, a);
      }
      assert e in BoundTo(reg', MirroredKeys(reg'), a);
    }
    assert MirrorsAccount(m, a, EntriesOf(reg, MirroredKeys(reg), a), scope);
    assert MirrorsAccount(m', a, EntriesOf(reg', MirroredKeys(reg'), a), scope);
  }

  lemma Platforms()
    ensures !Facebook(None) && Facebook(Some("facebook"))
  {
    assert |Lower(BTrim(""))| == 0;
    assert BTrim("facebook") == "facebook";
    assert Lower("facebook") == "facebook";
  }

  // So a call that changes the projection bumps a version of its stream.
  lemma RegistrationBumpsWhatItChanges(reg: Registry, scope: Scope, items: seq<Item>, p: Projection)
    requires IsProjection(p, reg) && !IsProjection(p, RegisterAll(reg, scope, Clean(items, {})))
    ensures HasBinding(Clean(items, {})) && ClientEnvironmentSlowStart in KeysOf(EnvironmentAutomation)
  {
    hide Clean, RegisterAll, IsProjection, HasBinding;
    if !HasBinding(Clean(items, {})) { UnboundLeavesProjection(reg, scope, Clean(items, {}), p); }
  }
}
