// Folding several version counters into one cursor by Cantor pairing.

module Cantor {

  // 0 + 1 + ... + n
  function Triangle(n: nat): nat {
    if n == 0 then 0 else Triangle(n - 1) + n
  }

  // Numbers the pairs diagonal by diagonal.
  function Pair(left: nat, right: nat): nat {
    Triangle(left + right) + right
  }

  lemma {:induction false} TriangleFormula(n: nat)
    ensures 2 * Triangle(n) == n * (n + 1)
  {
    if n > 0 {
      TriangleFormula(n - 1);
      assert n * (n + 1) == (n - 1) * n + 2 * n;
    }
  }

  // The number of a pair is what the source computes for it.
  lemma PairFormula(left: nat, right: nat)
    ensures var sum := left + right; Pair(left, right) == sum * (sum + 1) / 2 + right
  {
    TriangleFormula(left + right);
  }

  // `reduce` from an accumulator, left to right.
  function Fold(cursor: nat, versions: seq<nat>): nat
    decreases |versions|
  {
    if versions == [] then cursor else Fold(Pair(cursor, versions[0]), versions[1..])
  }

  // ---------- Pairing ----------

  lemma {:induction false} TriangleGrows(m: nat, n: nat)
    requires m < n
    ensures Triangle(n) >= Triangle(m) + m + 1
    decreases n - m
  {
    if m + 1 < n { TriangleGrows(m + 1, n); }
  }

  // Every natural number is the pair of at most one (left, right).
  lemma PairInjective(l: nat, r: nat, l': nat, r': nat)
    requires Pair(l, r) == Pair(l', r')
    ensures l == l' && r == r'
  {
    if l + r < l' + r' { TriangleGrows(l + r, l' + r'); }
    if l' + r' < l + r { TriangleGrows(l' + r', l + r); }
  }

  lemma PairIncreasing(l: nat, r: nat, l': nat, r': nat)
    requires l <= l' && r <= r'
    ensures Pair(l, r) <= Pair(l', r')
    ensures l < l' || r < r' ==> Pair(l, r) < Pair(l', r')
  {
    if l + r < l' + r' { TriangleGrows(l + r, l' + r'); }
  }

  // ---------- Folding ----------

  // On lists of one length the fold is injective.
  lemma {:induction false} FoldInjective(x: nat, a: seq<nat>, y: nat, b: seq<nat>)
    requires |a| == |b| && Fold(x, a) == Fold(y, b)
    ensures x == y && a == b
    decreases |a|
  {
    hide Pair;
    if a != [] {
      FoldInjective(Pair(x, a[0]), a[1..], Pair(y, b[0]), b[1..]);
      PairInjective(x, a[0], y, b[0]);
      assert a == [a[0]] + a[1..] && b == [b[0]] + b[1..];
    }
  }

  predicate AtMost(a: seq<nat>, b: seq<nat>) {
    |a| == |b| && forall i | 0 <= i < |a| :: a[i] <= b[i]
  }

  // And it rises strictly with every component.
  lemma {:induction false} FoldIncreasing(x: nat, a: seq<nat>, y: nat, b: seq<nat>)
    requires x <= y && AtMost(a, b)
    ensures Fold(x, a) <= Fold(y, b)
    ensures x < y || a != b ==> Fold(x, a) < Fold(y, b)
    decreases |a|
  {
    hide Pair;
    if a != [] {
      PairIncreasing(x, a[0], y, b[0]);
      FoldIncreasing(Pair(x, a[0]), a[1..], Pair(y, b[0]), b[1..]);
      assert a == [a[0]] + a[1..] && b == [b[0]] + b[1..];
    }
  }
}
