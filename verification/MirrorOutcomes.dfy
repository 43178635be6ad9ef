// What the published projection and the mirror of this process say of an account, in
// terms of the registry rows alone.

module MirrorOutcomes {
  import opened Wrappers
  import opened Text
  import opened Environments
  import opened SlowStart

  // Bound to the account: its id without blanks around it, the retired one aside.
  predicate BoundFor(row: EnvRow, a: string) {
    row.accountId.Some? && Trim(row.accountId.value) == a && a != "" && a != "default"
  }

  lemma BoundForIff(reg: Registry, keys: set<string>, a: string)
    requires keys <= reg.Keys
    ensures forall e :: e in BoundTo(reg, keys, a) <==> e in keys && BoundFor(reg[e], a)
  {
    hide Trim;
  }

  // The entries of an account with its one environment, or without any.
  lemma FewEntries(reg: Registry, keys: set<string>, a: string)
    requires keys <= reg.Keys
    ensures var envs := set e | e in keys && BoundFor(reg[e], a);
      && |EntriesOf(reg, keys, a)| == |envs|
      && forall e | e in reg && envs == {e} ::
           EntriesOf(reg, keys, a) == [Entry(e, reg[e].since, reg[e].completedAt)]
  {
    hide Sorted, BoundFor, BindingId;
    BoundForIff(reg, keys, a);
    var envs := set e | e in keys && BoundFor(reg[e], a);
    assert envs == BoundTo(reg, keys, a);
    forall e | e in reg && envs == {e}
      ensures EntriesOf(reg, keys, a) == [Entry(e, reg[e].since, reg[e].completedAt)]
    {
      EntriesCome(reg, keys, a, 0);
    }
  }

  // The projection lists the environments that are not active, in order, and of every
  // account with environments the one it has, or that it has several.
  lemma ProjectionOutcome(p: Projection, reg: Registry, a: string)
    requires IsProjection(p, reg)
    ensures var envs := set e | e in reg && BoundFor(reg[e], a);
      && (a in p.anchors <==> envs != {})
      && (|envs| > 1 ==> p.anchors[a] == Anchor(None, None, None, true))
      && (forall e | e in reg && envs == {e} ::
            a in p.anchors && p.anchors[a] == Anchor(Some(e), reg[e].since, reg[e].completedAt, false))
    ensures (forall e :: e in p.blocked <==> e in reg && reg[e].lifecycle != "active") && Increasing(p.blocked)
  {
    hide EntriesOf, BoundFor, Sorted, Increasing;
    FewEntries(reg, reg.Keys, a);
    assert (set e | e in reg && BoundFor(reg[e], a)) == set e | e in reg.Keys && BoundFor(reg[e], a);
    SortedIncreasing(BlockedKeys(reg));
    assert forall e :: e in p.blocked <==> e in Members(p.blocked);
  }

  // Spelled like the word, in small letters or capitals.
  predicate Spells(t: string, word: string) {
    |t| == |word| && forall i | 0 <= i < |t| :: t[i] == word[i] || t[i] as int == word[i] as int - 32
  }

  predicate Spaces(s: string) {
    forall c | c in s :: c == ' '
  }

  lemma {:induction false} BTrimCuts(s: string) returns (i: nat, j: nat)
    ensures i <= j <= |s| && BTrim(s) == s[i..j] && Spaces(s[..i]) && Spaces(s[j..])
    ensures BTrim(s) != "" ==> BTrim(s)[0] != ' ' && BTrim(s)[|BTrim(s)| - 1] != ' '
    decreases |s|
  {
    if s != "" && s[0] == ' ' {
      i, j := BTrimCuts(s[1..]);
      assert s[1..][i..j] == s[i + 1..j + 1] && s[1..][j..] == s[j + 1..];
      assert s[..i + 1] == [' '] + s[1..][..i];
      i, j := i + 1, j + 1;
    } else if s != "" && s[|s| - 1] == ' ' {
      i, j := BTrimCuts(s[..|s| - 1]);
      assert s[..|s| - 1][i..j] == s[i..j] && s[..|s| - 1][..i] == s[..i];
      assert s[j..] == s[..|s| - 1][j..] + [' '];
    } else {
      i, j := 0, |s|;
    }
  }

  lemma SpacesAround(s: string, i: nat, j: nat)
    requires i <= j <= |s| && Spaces(s[..i]) && Spaces(s[j..])
    ensures forall n | 0 <= n < i || j <= n < |s| :: s[n] == ' '
  {
    forall n | 0 <= n < i || j <= n < |s| ensures s[n] == ' ' {
      assert if n < i then s[n] in s[..i] else s[n] in s[j..];
    }
  }

  lemma CutsAgree(s: string, i: nat, j: nat, k: nat, l: nat)
    requires i < j <= |s| && k <= l <= |s|
    requires Spaces(s[..i]) && Spaces(s[j..]) && s[i] != ' ' && s[j - 1] != ' '
    requires Spaces(s[..k]) && Spaces(s[l..]) && (k < l ==> s[k] != ' ' && s[l - 1] != ' ')
    ensures k == i && l == j
  {
    assert forall n | 0 <= n < i || j <= n < |s| :: s[n] == ' ' by { SpacesAround(s, i, j); }
    assert forall n | 0 <= n < k || l <= n < |s| :: s[n] == ' ' by { SpacesAround(s, k, l); }
  }

  lemma LowerSpells(t: string, word: string)
    requires forall c | c in word :: 'a' <= c <= 'z'
    ensures Lower(t) == word <==> Spells(t, word)
  {
    if Lower(t) == word {
      forall i | 0 <= i < |t| ensures t[i] == word[i] || t[i] as int == word[i] as int - 32 {
        assert Lower(t)[i] == LowerChar(t[i]);
      }
    }
    if Spells(t, word) {
      forall i | 0 <= i < |t| ensures Lower(t)[i] == word[i] { assert word[i] in word; }
    }
  }

  // A platform counts as Facebook if it spells the name or its short form, with any
  // spaces around it.
  lemma FacebookIff(platform: Option<string>)
    ensures Facebook(platform) <==>
      platform.Some? && exists i, j | 0 <= i <= j <= |platform.value| ::
        && Spaces(platform.value[..i]) && Spaces(platform.value[j..])
        && (Spells(platform.value[i..j], "facebook") || Spells(platform.value[i..j], "fb"))
  {
    hide BTrim, Lower, Spells, Spaces;
    var s := platform.UnwrapOr("");
    var k, l := BTrimCuts(s);
    LowerSpells(s[k..l], "facebook");
    LowerSpells(s[k..l], "fb");
    if platform.None? { assert |Lower(BTrim(""))| == 0; }
    if platform.Some? {
      forall i, j | 0 <= i <= j <= |s| && Spaces(s[..i]) && Spaces(s[j..])
                    && (Spells(s[i..j], "facebook") || Spells(s[i..j], "fb"))
        ensures i == k && j == l
      {
        SpelledHasEnds(s[i..j]);
        CutsAgree(s, i, j, k, l);
      }
    }
  }

  lemma SpelledHasEnds(t: string)
    requires Spells(t, "facebook") || Spells(t, "fb")
    ensures t != "" && t[0] != ' ' && t[|t| - 1] != ' '
  {
  }

  // The mirror resolves an account with one active Facebook environment, with its key
  // unless several customers own it, and calls an account with more ambiguous.
  lemma MirrorOutcome(m: Mirror, reg: Registry, scope: Scope, a: string)
    requires IsMirror(m, reg, scope)
    ensures var envs := set e | e in reg && reg[e].lifecycle == "active" && Facebook(reg[e].platform)
                              && BoundFor(reg[e], a);
      && (a in m.ambiguous <==> |envs| > 1)
      && (a in m.since <==> |envs| == 1) && (a in m.completedAt <==> |envs| == 1)
      && (|envs| != 1 ==> a !in m.envKeys && (a in m.ambiguousKeys <==> |envs| > 1))
      && (forall e | e in reg && envs == {e} ::
            var contended := |set k | k in scope && k.1 == e| > 1;
            && a in m.since && m.since[a] == reg[e].since
            && a in m.completedAt && m.completedAt[a] == reg[e].completedAt
            && (a in m.envKeys <==> !contended) && (a in m.ambiguousKeys <==> contended)
            && (a in m.envKeys ==> m.envKeys[a] == e))
  {
    hide EntriesOf, BoundFor, Sorted, Facebook, OwnersOf;
    var keys := MirroredKeys(reg);
    FewEntries(reg, keys, a);
    var envs := set e | e in reg && reg[e].lifecycle == "active" && Facebook(reg[e].platform) && BoundFor(reg[e], a);
    forall e ensures e in envs <==> e in keys && BoundFor(reg[e], a) {
      if e in reg && BoundFor(reg[e], a) { BoundIsBound(reg[e], a); }
    }
    assert envs == set e | e in keys && BoundFor(reg[e], a);
    assert MirrorsAccount(m, a, EntriesOf(reg, keys, a), scope);
    forall e | e in reg && envs == {e} ensures |OwnersOf(scope, e)| == |set k | k in scope && k.1 == e| {
      OwnersCounted(scope, e);
    }
  }

  lemma BoundIsBound(row: EnvRow, a: string)
    requires BoundFor(row, a)
    ensures row.accountId.Some?
  {
  }

  // Each row of the scope for an environment is another owner.
  lemma {:induction false} OwnersCounted(scope: Scope, e: string)
    ensures |OwnersOf(scope, e)| == |set k | k in scope && k.1 == e|
    decreases |scope|
  {
    var rows := set k | k in scope && k.1 == e;
    if rows == {} {
      assert forall k | k in scope :: k !in rows;
      assert OwnersOf(scope, e) == {};
    } else {
      var k :| k in rows;
      var rest := scope - {k};
      OwnersCounted(rest, e);
      assert rows == (set j | j in rest && j.1 == e) + {k};
      assert OwnersOf(scope, e) == OwnersOf(rest, e) + {k.0} by {
        assert forall u, f :: u in OwnersOf(scope, f) <==> (u, f) in scope;
        assert forall u, f :: u in OwnersOf(rest, f) <==> (u, f) in rest;
      }
      assert k.0 !in OwnersOf(rest, e) by {
        assert forall j | j in rest && j.1 == e :: j != k && j.0 != k.0;
      }
    }
  }
}
