// What a batch of registrations leaves in the registry, environment by environment.

module Registrations {
  import opened Wrappers
  import opened Text
  import opened Environments

  predicate DistinctKeys(items: seq<Item>) {
    forall i, j | 0 <= i < j < |items| :: items[i].envKey != items[j].envKey
  }

  // As the batch is cleaned: every key once.
  lemma {:induction false} CleanIsDistinct(items: seq<Item>, seen: set<string>)
    ensures DistinctKeys(Clean(items, seen)) && forall i | i in Clean(items, seen) :: i.envKey !in seen
    decreases |items|
  {
    hide CleanItem;
    if items != [] {
      var i := CleanItem(items[0]);
      CleanIsDistinct(items[1..], seen);
      CleanIsDistinct(items[1..], seen + {i.envKey});
    }
  }

  // The text without the blanks around it, if anything is left.
  predicate Trimmed(s: Option<string>, r: Option<string>) {
    r == if s.Some? && Trim(s.value) != "" then Some(Trim(s.value)) else None
  }

  // An item as it is written: all texts trimmed, the retired account id no observation.
  predicate CleanOf(raw: Item, i: Item) {
    && i.envKey == Trim(raw.envKey) && i.envKey != ""
    && Trimmed(raw.labelText, i.labelText) && Trimmed(raw.platform, i.platform)
    && (if raw.accountId.Some? && Trim(raw.accountId.value) == "default" then i.accountId == None
        else Trimmed(raw.accountId, i.accountId))
  }

  predicate FirstWithKey(items: seq<Item>, n: nat)
    requires n < |items|
  {
    forall m | 0 <= m < n :: Trim(items[m].envKey) != Trim(items[n].envKey)
  }

  // Written are the first items of all keys that are not blank, and nothing else.
  lemma {:induction false} CleanTakesFirst(items: seq<Item>, seen: set<string>)
    ensures forall i | i in Clean(items, seen) ::
              exists n | 0 <= n < |items| :: FirstWithKey(items, n) && CleanOf(items[n], i)
    ensures forall n | 0 <= n < |items| ::
              FirstWithKey(items, n) && Trim(items[n].envKey) != "" && Trim(items[n].envKey) !in seen ==>
                exists i | i in Clean(items, seen) :: CleanOf(items[n], i)
    decreases |items|
  {
    hide Trim, FirstWithKey;
    if items != [] {
      var i := CleanItem(items[0]);
      var skipped := i.envKey == "" || i.envKey in seen;
      var seen' := if skipped then seen else seen + {i.envKey};
      var rest := Clean(items[1..], seen');
      CleanTakesFirst(items[1..], seen');
      CleanIsDistinct(items[1..], seen');
      assert CleanOf(items[0], i) || i.envKey == "";
      FirstIsFirst(items);
      forall j | j in rest ensures exists n | 0 <= n < |items| :: FirstWithKey(items, n) && CleanOf(items[n], j) {
        var n :| 0 <= n < |items| - 1 && FirstWithKey(items[1..], n) && CleanOf(items[1..][n], j);
        FirstOfRest(items, n);
      }
      forall n | 0 <= n < |items| && FirstWithKey(items, n) && Trim(items[n].envKey) != ""
                 && Trim(items[n].envKey) !in seen
        ensures exists j | j in Clean(items, seen) :: CleanOf(items[n], j)
      {
        if n == 0 {
          assert i in Clean(items, seen);
        } else {
          FirstOfRest(items, n - 1);
          var j :| j in rest && CleanOf(items[1..][n - 1], j);
        }
      }
    }
  }

  lemma FirstIsFirst(items: seq<Item>)
    requires items != []
    ensures FirstWithKey(items, 0)
  {
  }

  lemma FirstOfRest(items: seq<Item>, n: nat)
    requires n + 1 < |items|
    ensures FirstWithKey(items, n + 1) <==>
              FirstWithKey(items[1..], n) && Trim(items[0].envKey) != Trim(items[n + 1].envKey)
  {
    hide Trim;
    assert forall m | 0 <= m < n :: items[1..][m] == items[m + 1];
    if FirstWithKey(items[1..], n) && Trim(items[0].envKey) != Trim(items[n + 1].envKey) {
      forall m | 0 <= m < n + 1 ensures Trim(items[m].envKey) != Trim(items[n + 1].envKey) {
        if m > 0 { assert items[1..][m - 1] == items[m]; }
      }
    }
  }

  // ---------- The registry afterwards ----------

  lemma {:induction false} NotListed(reg: Registry, scope: Scope, items: seq<Item>, e: string)
    requires forall i | i in items :: i.envKey != e
    ensures var reg' := RegisterAll(reg, scope, items);
      (e in reg' <==> e in reg) && (e in reg ==> reg'[e] == reg[e])
    decreases |items|
  {
    hide Conflicts;
    if items != [] { NotListed(RegisterOne(reg, scope, items[0]), scope, items[1..], e); }
  }

  lemma {:induction false} InTurn(reg: Registry, scope: Scope, items: seq<Item>, n: nat)
    requires n <= |items|
    ensures RegisterAll(reg, scope, items) == RegisterAll(RegisterAll(reg, scope, items[..n]), scope, items[n..])
    decreases n
  {
    hide RegisterOne;
    if n > 0 {
      assert items[..n][1..] == items[1..][..n - 1] && items[1..][n - 1..] == items[n..];
      InTurn(RegisterOne(reg, scope, items[0]), scope, items[1..], n - 1);
    }
  }

  predicate SameOwners(scope: Scope, e: string, f: string) {
    && (forall k | k in scope && k.1 == e :: (k.0, f) in scope)
    && (forall k | k in scope && k.1 == f :: (k.0, e) in scope)
  }

  // The account is bound to an environment with another owner, or with one where this
  // one has none.
  predicate TakenElsewhere(reg: Registry, scope: Scope, e: string, accountId: string) {
    exists f | f in reg :: f != e && reg[f].accountId == Some(accountId) && !SameOwners(scope, e, f)
  }

  lemma TakenIsConflict(reg: Registry, scope: Scope, e: string, accountId: string)
    ensures TakenElsewhere(reg, scope, e, accountId) <==> Conflicts(reg, scope, e, accountId)
  {
    forall f ensures SameOwners(scope, e, f) <==> OwnersOf(scope, e) == OwnersOf(scope, f) {
      SameOwnersIff(scope, e, f);
    }
  }

  lemma SameOwnersIff(scope: Scope, e: string, f: string)
    ensures SameOwners(scope, e, f) <==> OwnersOf(scope, e) == OwnersOf(scope, f)
  {
    assert forall g, u :: u in OwnersOf(scope, g) <==> (u, g) in scope;
    if OwnersOf(scope, e) == OwnersOf(scope, f) {
      forall k | k in scope && k.1 == e ensures (k.0, f) in scope { assert k.0 in OwnersOf(scope, f); }
      forall k | k in scope && k.1 == f ensures (k.0, e) in scope { assert k.0 in OwnersOf(scope, e); }
    }
  }

  // New observations win, missing ones keep what is there: an environment's binding is
  // its item's, unless the account is taken elsewhere when its turn comes; label and
  // platform are the item's where given; a new row is active; the rest of the row and
  // every environment not in the batch stay as they were.
  lemma RegistrationOutcome(reg: Registry, scope: Scope, items: seq<Item>, n: nat)
    requires DistinctKeys(items) && n < |items|
    ensures var i := items[n];
      var reg', turn := RegisterAll(reg, scope, items), RegisterAll(reg, scope, items[..n]);
      var was := if i.envKey in reg then reg[i.envKey] else EnvRow(None, None, "active", None, None, None);
      && i.envKey in reg'
      && reg'[i.envKey] == EnvRow(
           if i.labelText.Some? then i.labelText else was.labelText,
           if i.platform.Some? then i.platform else was.platform,
           was.lifecycle,
           if i.accountId.Some? && !TakenElsewhere(turn, scope, i.envKey, i.accountId.value) then i.accountId
           else was.accountId,
           was.since, was.completedAt)
    ensures forall e | forall i | i in items :: i.envKey != e ::
              var reg' := RegisterAll(reg, scope, items);
              (e in reg' <==> e in reg) && (e in reg ==> reg'[e] == reg[e])
  {
    hide RegisterAll, TakenElsewhere, Conflicts;
    var i := items[n];
    var turn := RegisterAll(reg, scope, items[..n]);
    InTurn(reg, scope, items, n);
    InTurn(turn, scope, items[n..], 1);
    assert items[n..][..1] == [i] && items[n..][1..] == items[n + 1..];
    OneItem(turn, scope, i);
    NotListed(reg, scope, items[..n], i.envKey);
    NotListed(RegisterOne(turn, scope, i), scope, items[n + 1..], i.envKey);
    if i.accountId.Some? { TakenIsConflict(turn, scope, i.envKey, i.accountId.value); }
    forall e | forall i | i in items :: i.envKey != e
      ensures var reg' := RegisterAll(reg, scope, items);
              (e in reg' <==> e in reg) && (e in reg ==> reg'[e] == reg[e])
    {
      NotListed(reg, scope, items, e);
    }
  }

  lemma OneItem(reg: Registry, scope: Scope, i: Item)
    ensures RegisterAll(reg, scope, [i]) == RegisterOne(reg, scope, i)
  {
    hide RegisterOne;
    assert [i][1..] == [];
    assert RegisterAll(RegisterOne(reg, scope, i), scope, []) == RegisterOne(reg, scope, i);
  }
}
