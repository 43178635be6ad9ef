// Which account a customer reaches through which environment, in any table state and
// in the states registrations lead to.

module Bindings {
  import opened Wrappers
  import opened Text
  import opened Environments

  datatype BindingReason = NotOwned | Unknown | Contended

  datatype Resolved = Bound(accountId: string) | Unresolved(reason: BindingReason)

  // The account is bound to an environment another customer owns.
  predicate ContendedAcross(reg: Registry, scope: Scope, accountId: string, userId: string) {
    exists k | k in scope :: k.1 in reg && reg[k.1].accountId == Some(accountId) && k.0 != userId
  }

  // `resolveBoundAccountForEnv`, with the rows of the accounts table.
  function Resolve(reg: Registry, scope: Scope, accounts: set<string>, userId: string, envKey: string): Resolved {
    var key := Trim(envKey);
    if userId == "" || key == "" then Unresolved(NotOwned)
    else if (userId, key) !in scope || key !in reg || reg[key].lifecycle != ACTIVE then Unresolved(NotOwned)
    else if reg[key].accountId.None? then Unresolved(Unknown)
    else if ContendedAcross(reg, scope, reg[key].accountId.value, userId) then Unresolved(Contended)
    else if reg[key].accountId.value !in accounts then Unresolved(Unknown)
    else Bound(reg[key].accountId.value)
  }

  predicate OwnsBound(reg: Registry, scope: Scope, userId: string, accountId: string) {
    exists k | k in scope :: k.0 == userId && k.1 in reg && reg[k.1].accountId == Some(accountId)
  }

  // `isAccountReachableByUser`
  function Reachable(reg: Registry, scope: Scope, userId: string, accountId: string): Resolved {
    var account := Trim(accountId);
    if userId == "" || account == "" then Unresolved(NotOwned)
    else if ContendedAcross(reg, scope, account, userId) then Unresolved(Contended)
    else if OwnsBound(reg, scope, userId, account) then Bound(account)
    else Unresolved(NotOwned)
  }

  // ---------- Any table state ----------

  // The environment the customer names is its own and active.
  predicate OwnActive(reg: Registry, scope: Scope, userId: string, e: string) {
    userId != "" && e != "" && (userId, e) in scope && e in reg && reg[e].lifecycle == "active"
  }

  predicate OthersHave(reg: Registry, scope: Scope, userId: string, accountId: string) {
    exists k | k in scope :: k.0 != userId && k.1 in reg && reg[k.1].accountId == Some(accountId)
  }

  // Every answer of the lookup by environment, and exactly when it is given: the bound
  // account; contended, as soon as an environment of another customer has it; unknown,
  // for no account or one that does not exist; not owned.
  lemma ResolveOutcome(reg: Registry, scope: Scope, accounts: set<string>, u: string, envKey: string)
    ensures var r, e := Resolve(reg, scope, accounts, u, envKey), Trim(envKey);
      var own := OwnActive(reg, scope, u, e);
      && (r == Unresolved(NotOwned) <==> !own)
      && (r == Unresolved(Contended) <==>
            own && reg[e].accountId.Some? && OthersHave(reg, scope, u, reg[e].accountId.value))
      && (r == Unresolved(Unknown) <==>
            && own
            && (reg[e].accountId.Some? ==>
                  !OthersHave(reg, scope, u, reg[e].accountId.value) && reg[e].accountId.value !in accounts))
      && forall a :: r == Bound(a) <==>
            own && reg[e].accountId == Some(a) && !OthersHave(reg, scope, u, a) && a in accounts
  {
    hide Trim;
    var e := Trim(envKey);
    if OwnActive(reg, scope, u, e) && reg[e].accountId.Some? {
      ContendedIffOthers(reg, scope, u, reg[e].accountId.value);
    }
  }

  lemma ContendedIffOthers(reg: Registry, scope: Scope, u: string, a: string)
    ensures ContendedAcross(reg, scope, a, u) <==> OthersHave(reg, scope, u, a)
  {
  }

  // And of the lookup by account.
  lemma ReachableOutcome(reg: Registry, scope: Scope, u: string, accountId: string)
    ensures var r, a := Reachable(reg, scope, u, accountId), Trim(accountId);
      var named := u != "" && a != "";
      var owned := exists k | k in scope :: k.0 == u && k.1 in reg && reg[k.1].accountId == Some(a);
      && (r == Unresolved(Contended) <==> named && OthersHave(reg, scope, u, a))
      && (r == Bound(a) <==> named && !OthersHave(reg, scope, u, a) && owned)
      && (r == Unresolved(NotOwned) <==> !named || (!OthersHave(reg, scope, u, a) && !owned))
  {
    hide Trim;
    ContendedIffOthers(reg, scope, u, Trim(accountId));
  }

  // No account resolves for two different customers.
  lemma OneCustomerPerAccount(reg: Registry, scope: Scope, accounts: set<string>, u: string, e: string, v: string,
                              f: string)
    requires Resolve(reg, scope, accounts, u, e).Bound? && Resolve(reg, scope, accounts, v, f).Bound?
    requires Resolve(reg, scope, accounts, u, e) == Resolve(reg, scope, accounts, v, f)
    ensures u == v
  {
    hide Trim;
    var a := Resolve(reg, scope, accounts, u, e).accountId;
    assert (v, Trim(f)) in scope && reg[Trim(f)].accountId == Some(a);
    assert !ContendedAcross(reg, scope, a, u);
  }

  // What resolves is reachable under its own name exactly when that name has no blanks
  // around it: the lookup by account trims its argument, the lookup by environment
  // returns the stored text.
  lemma ResolvedIsReachable(reg: Registry, scope: Scope, accounts: set<string>, u: string, e: string)
    requires Resolve(reg, scope, accounts, u, e).Bound?
    ensures var a := Resolve(reg, scope, accounts, u, e).accountId;
      Reachable(reg, scope, u, a) == Bound(a) <==> Trim(a) == a && a != ""
  {
    hide Trim;
    var a := Resolve(reg, scope, accounts, u, e).accountId;
    assert (u, Trim(e)) in scope;
    assert OwnsBound(reg, scope, u, a);
  }

  // An account reachable by a customer is bound to an environment of that customer and
  // to no other customer's; from such an environment it resolves, if that is active
  // and the account exists.
  lemma ReachableResolves(reg: Registry, scope: Scope, accounts: set<string>, u: string, a: string, e: string)
    requires Reachable(reg, scope, u, a).Bound?
    requires e in reg && (u, e) in scope && reg[e].accountId == Some(Trim(a))
    requires Trim(e) == e && e != ""
    ensures Resolve(reg, scope, accounts, u, e) == Bound(Trim(a)) <==> reg[e].lifecycle == ACTIVE && Trim(a) in accounts
    ensures forall v, f | (v, f) in scope && f in reg && reg[f].accountId == Some(Trim(a)) :: v == u
  {
    hide Trim;
  }

  // ---------- States reached by registrations ----------

  // Stored account ids are trimmed, not empty and not the retired one.
  ghost predicate CleanBindings(reg: Registry) {
    forall e | e in reg && reg[e].accountId.Some? :: CleanId(reg[e].accountId.value)
  }

  predicate CleanId(a: string) {
    Trim(a) == a && a != "" && a != RETIRED
  }

  // Environments bound to one account have one owner, or all none.
  ghost predicate OneOwnerPerAccount(reg: Registry, scope: Scope) {
    forall e, f | e in reg && f in reg && reg[e].accountId.Some? && reg[e].accountId == reg[f].accountId ::
      OwnersOf(scope, e) == OwnersOf(scope, f)
  }

  lemma {:induction false} CleanItems(items: seq<Item>, seen: set<string>)
    ensures forall i | i in Clean(items, seen) && i.accountId.Some? :: CleanId(i.accountId.value)
    decreases |items|
  {
    hide Trim;
    if items != [] {
      var i := CleanItem(items[0]);
      CleanItems(items[1..], seen);
      CleanItems(items[1..], seen + {i.envKey});
      if items[0].accountId.Some? { TrimIdempotent(items[0].accountId.value); }
    }
  }

  lemma RegisterOneKeeps(reg: Registry, scope: Scope, i: Item)
    requires OneOwnerPerAccount(reg, scope)
    ensures OneOwnerPerAccount(RegisterOne(reg, scope, i), scope)
    ensures CleanBindings(reg) && (i.accountId.Some? ==> CleanId(i.accountId.value)) ==>
              CleanBindings(RegisterOne(reg, scope, i))
  {
    hide CleanId, OwnersOf;
    var reg' := RegisterOne(reg, scope, i);
    assert forall e | e in reg' && e != i.envKey :: e in reg && reg'[e] == reg[e];
  }

  // The write gate: registrations keep the environments of an account under one owner.
  lemma {:induction false} RegistrationsKeep(reg: Registry, scope: Scope, items: seq<Item>)
    requires OneOwnerPerAccount(reg, scope)
    ensures OneOwnerPerAccount(RegisterAll(reg, scope, items), scope)
    ensures CleanBindings(reg) && (forall i | i in items && i.accountId.Some? :: CleanId(i.accountId.value)) ==>
              CleanBindings(RegisterAll(reg, scope, items))
    decreases |items|
  {
    hide CleanId, OwnersOf, RegisterOne, OneOwnerPerAccount, CleanBindings;
    if items != [] {
      RegisterOneKeeps(reg, scope, items[0]);
      RegistrationsKeep(RegisterOne(reg, scope, items[0]), scope, items[1..]);
      assert items[0] in items && forall i | i in items[1..] :: i in items;
    }
  }

  // With at most one owner per environment, an account is then never contended, and
  // resolving an environment and reaching its account agree without conditions.
  lemma AfterRegistrations(reg: Registry, scope: Scope, items: seq<Item>, accounts: set<string>, u: string, e: string)
    requires OneOwnerPerAccount(reg, scope) && CleanBindings(reg)
    requires forall k, l | k in scope && l in scope && k.1 == l.1 :: k == l
    requires var reg' := RegisterAll(reg, scope, Clean(items, {}));
      u != "" && Trim(e) == e != "" && (u, e) in scope && e in reg' && reg'[e].lifecycle == ACTIVE
      && reg'[e].accountId.Some? && reg'[e].accountId.value in accounts
    ensures var reg' := RegisterAll(reg, scope, Clean(items, {}));
      var a := reg'[e].accountId.value;
      Resolve(reg', scope, accounts, u, e) == Reachable(reg', scope, u, a) == Bound(a)
  {
    hide Trim, Clean, RegisterAll;
    var reg' := RegisterAll(reg, scope, Clean(items, {}));
    CleanItems(items, {});
    RegistrationsKeep(reg, scope, Clean(items, {}));
    var a := reg'[e].accountId.value;
    assert CleanId(a);
    forall k | k in scope && k.1 in reg' && reg'[k.1].accountId == Some(a) ensures k.0 == u {
      assert OwnersOf(scope, k.1) == OwnersOf(scope, e);
      assert k.0 in OwnersOf(scope, e);
    }
    assert !ContendedAcross(reg', scope, a, u);
    assert OwnsBound(reg', scope, u, a);
  }
}
