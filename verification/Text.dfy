// Optional values, minima and maxima, and the string operations the modelled code relies on:
// trimming, UTF-16 length, decimal numerals and the ordering used by sorts.

module Wrappers {
  datatype Option<+T> = None | Some(value: T) {
    function UnwrapOr(default: T): T {
      if Some? then value else default
    }
  }
}

module Numbers {
  function Min(a: int, b: int): int { if a < b then a else b }

  function Max(a: int, b: int): int { if a < b then b else a }
}

module Text {

  // The code points String.prototype.trim removes.
  predicate IsSpace(c: char) {
    || '\U{0009}' <= c <= '\U{000D}'
    || c == ' ' || c == '\U{00A0}' || c == '\U{1680}'
    || '\U{2000}' <= c <= '\U{200A}'
    || c == '\U{2028}' || c == '\U{2029}' || c == '\U{202F}' || c == '\U{205F}'
    || c == '\U{3000}' || c == '\U{FEFF}'
  }

  function TrimStart(s: string): (r: string)
    ensures |r| <= |s|
    ensures r == "" || !IsSpace(r[0])
  {
    if s != "" && IsSpace(s[0]) then TrimStart(s[1..]) else s
  }

  function TrimEnd(s: string): (r: string)
    ensures |r| <= |s| && r == s[..|r|]
    ensures r == "" || !IsSpace(r[|r| - 1])
    ensures s != "" && !IsSpace(s[|s| - 1]) ==> r == s
  {
    if s != "" && IsSpace(s[|s| - 1]) then TrimEnd(s[..|s| - 1]) else s
  }

  function Trim(s: string): (r: string)
    ensures |r| <= |s|
    ensures r == "" || (!IsSpace(r[0]) && !IsSpace(r[|r| - 1]))
    ensures s != "" && !IsSpace(s[0]) && !IsSpace(s[|s| - 1]) ==> r == s
  {
    TrimEnd(TrimStart(s))
  }

  lemma TrimIdempotent(s: string)
    ensures Trim(Trim(s)) == Trim(s)
  {
  }

  // Nothing is left of it when it is trimmed.
  predicate Blank(s: string) {
    forall c | c in s :: IsSpace(c)
  }

  lemma {:induction false} StartCut(s: string) returns (i: nat)
    ensures i <= |s| && TrimStart(s) == s[i..] && Blank(s[..i])
  {
    hide IsSpace;
    if s != "" && IsSpace(s[0]) {
      i := StartCut(s[1..]);
      assert s[..i + 1] == [s[0]] + s[1..][..i];
      i := i + 1;
    } else {
      i := 0;
    }
  }

  lemma {:induction false} EndCut(s: string)
    ensures |TrimEnd(s)| <= |s| && Blank(s[|TrimEnd(s)|..])
    decreases |s|
  {
    hide IsSpace;
    if s != "" && IsSpace(s[|s| - 1]) {
      EndCut(s[..|s| - 1]);
      var n := |TrimEnd(s)|;
      assert s[n..] == s[..|s| - 1][n..] + [s[|s| - 1]];
    }
  }

  // Trimming cuts off space at both ends and nothing else, and leaves none at either.
  lemma TrimCuts(s: string) returns (i: nat, j: nat)
    ensures i <= j <= |s| && Trim(s) == s[i..j] && Blank(s[..i]) && Blank(s[j..])
    ensures i < j ==> !IsSpace(s[i]) && !IsSpace(s[j - 1])
  {
    hide IsSpace;
    i := StartCut(s);
    EndCut(s[i..]);
    j := i + |Trim(s)|;
    assert s[i..][..|Trim(s)|] == s[i..j] && s[i..][|Trim(s)|..] == s[j..];
  }

  lemma {:induction false} StartOfBlank(s: string)
    ensures TrimStart(s) == "" <==> Blank(s)
  {
    hide IsSpace;
    if s != "" && IsSpace(s[0]) {
      StartOfBlank(s[1..]);
      assert s == [s[0]] + s[1..];
    }
  }

  lemma {:induction false} EndOfBlank(s: string)
    ensures TrimEnd(s) == "" <==> Blank(s)
    decreases |s|
  {
    hide IsSpace;
    if s != "" && IsSpace(s[|s| - 1]) {
      EndOfBlank(s[..|s| - 1]);
      assert s == s[..|s| - 1] + [s[|s| - 1]];
    }
  }

  lemma BlankIsTrimmed(s: string)
    ensures Blank(s) <==> Trim(s) == ""
  {
    hide IsSpace;
    StartOfBlank(s);
    EndOfBlank(TrimStart(s));
    if TrimStart(s) != "" { assert TrimStart(s)[0] in TrimStart(s); }
  }

  // JavaScript's `length`: code points beyond the basic plane take two units.
  function Utf16Length(s: string): nat {
    if s == "" then 0 else (if s[0] > '\U{FFFF}' then 2 else 1) + Utf16Length(s[1..])
  }

  // Strict lexicographic order, and the list of a set's strings in that order.

  predicate Less(a: string, b: string) {
    if b == "" then false
    else if a == "" then true
    else a[0] < b[0] || (a[0] == b[0] && Less(a[1..], b[1..]))
  }

  lemma LessIrreflexive(a: string)
    ensures !Less(a, a)
  {
  }

  lemma LessTotal(a: string, b: string)
    ensures a == b || Less(a, b) || Less(b, a)
  {
    if a != "" && b != "" && a[0] == b[0] {
      LessTotal(a[1..], b[1..]);
      assert a == [a[0]] + a[1..] && b == [b[0]] + b[1..];
    }
  }

  lemma LessTransitive(a: string, b: string, c: string)
    requires Less(a, b) && Less(b, c)
    ensures Less(a, c)
  {
  }

  predicate IsLeast(k: string, s: set<string>) {
    k in s && forall j | j in s :: j == k || Less(k, j)
  }

  lemma {:induction false} LeastExists(s: set<string>)
    requires s != {}
    ensures exists k :: IsLeast(k, s)
    decreases |s|
  {
    var x :| x in s;
    var rest := s - {x};
    if rest == {} {
      assert s == {x};
      assert IsLeast(x, s);
    } else {
      LeastExists(rest);
      var k :| IsLeast(k, rest);
      LessTotal(x, k);
      if Less(x, k) {
        forall j | j in s ensures j == x || Less(x, j) {
          if j != x && j != k { LessTransitive(x, k, j); }
        }
        assert IsLeast(x, s);
      } else {
        assert IsLeast(k, s);
      }
    }
  }

  lemma LeastUnique(a: string, b: string, s: set<string>)
    requires IsLeast(a, s) && IsLeast(b, s)
    ensures a == b
  {
    if a != b {
      LessTransitive(a, b, a);
      LessIrreflexive(a);
    }
  }

  function Least(s: set<string>): (k: string)
    requires s != {}
    ensures IsLeast(k, s)
  {
    LeastExists(s);
    assert forall a, b | IsLeast(a, s) && IsLeast(b, s) :: a == b by {
      forall a, b | IsLeast(a, s) && IsLeast(b, s) ensures a == b { LeastUnique(a, b, s); }
    }
    var k :| IsLeast(k, s);
    k
  }

  function Members(ks: seq<string>): set<string> {
    set k | k in ks
  }

  lemma MembersCons(k: string, ks: seq<string>)
    ensures Members([k] + ks) == {k} + Members(ks)
  {
    assert forall x :: x in [k] + ks <==> x == k || x in ks;
  }

  predicate Increasing(ks: seq<string>) {
    forall i, j | 0 <= i < j < |ks| :: Less(ks[i], ks[j])
  }

  lemma IncreasingCons(k: string, ks: seq<string>)
    requires Increasing(ks) && forall j | j in ks :: Less(k, j)
    ensures Increasing([k] + ks)
  {
    forall i, j | 0 <= i < j < |ks| + 1 ensures Less(([k] + ks)[i], ([k] + ks)[j]) {
      assert ks[j - 1] in ks;
    }
  }

  function Sorted(s: set<string>): (ks: seq<string>)
    ensures Members(ks) == s && |ks| == |s|
    decreases |s|
  {
    if s == {} then []
    else
      var k := Least(s);
      var rest := Sorted(s - {k});
      MembersCons(k, rest);
      [k] + rest
  }

  lemma {:induction false} SortedIncreasing(s: set<string>)
    ensures Increasing(Sorted(s))
    decreases |s|
  {
    if s != {} {
      var k := Least(s);
      var rest := Sorted(s - {k});
      SortedIncreasing(s - {k});
      assert forall j | j in rest :: j in Members(rest);
      IncreasingCons(k, rest);
    }
  }

  // A strictly increasing list is determined by its elements.
  lemma {:induction false} SortedUnique(ks: seq<string>)
    requires Increasing(ks)
    ensures ks == Sorted(Members(ks))
    decreases |ks|
  {
    if ks != [] {
      var s := Members(ks);
      assert ks[0] in s;
      forall j | j in s ensures j == ks[0] || Less(ks[0], j) {}
      LeastUnique(ks[0], Least(s), s);
      var rest := ks[1..];
      forall k | k in rest ensures k != ks[0] { LessIrreflexive(k); }
      assert Members(rest) == s - {ks[0]} by {
        assert ks == [ks[0]] + rest;
      }
      SortedUnique(rest);
      assert ks == [ks[0]] + rest;
    }
  }

  // Decimal numerals.

  function Digit(d: nat): (c: char)
    requires d < 10
    ensures '0' <= c <= '9'
  {
    '0' + d as char
  }

  function Decimal(n: nat): (s: string)
    ensures s != "" && forall c | c in s :: '0' <= c <= '9'
  {
    if n < 10 then [Digit(n)] else Decimal(n / 10) + [Digit(n % 10)]
  }

  lemma {:induction false} DecimalInjective(m: nat, n: nat)
    requires Decimal(m) == Decimal(n)
    ensures m == n
    decreases m
  {
    var s, t := Decimal(m), Decimal(n);
    if m >= 10 && n >= 10 {
      assert s[..|s| - 1] == Decimal(m / 10) && t[..|t| - 1] == Decimal(n / 10);
      DecimalInjective(m / 10, n / 10);
      assert s[|s| - 1] == Digit(m % 10) && t[|t| - 1] == Digit(n % 10);
    }
  }

  function Numeral(n: int): (s: string)
    ensures s != "" && (forall c | c in s :: c == '-' || '0' <= c <= '9')
  {
    if n < 0 then "-" + Decimal(-n) else Decimal(n)
  }

  lemma NumeralInjective(m: int, n: int)
    requires Numeral(m) == Numeral(n)
    ensures m == n
  {
    var s, t := Numeral(m), Numeral(n);
    assert s[0] in s && t[0] in t;
    assert (s[0] == '-') == (m < 0) && (t[0] == '-') == (n < 0);
    if m < 0 {
      assert s[1..] == Decimal(-m) && t[1..] == Decimal(-n);
      DecimalInjective(-m, -n);
    } else {
      DecimalInjective(m, n);
    }
  }
}
