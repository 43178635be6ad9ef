// The canonical text a command is hashed over. A collision-free hash of the
// text separates exactly the commands the text separates, so the text itself
// stands for the hash in the rest of the model.

module CanonicalJson {
  import opened Text

  predicate IsNumeralChar(c: char) {
    '0' <= c <= '9' || c == '-' || c == '+' || c == '.' || c == 'e'
  }

  // A finite number, by the numeral JSON.stringify prints for it.
  type NumberText = s: string |
    && s != "" && (s[0] == '-' || '0' <= s[0] <= '9')
    && (forall c | c in s :: IsNumeralChar(c))
    witness "0"

  datatype Json =
    | Null
    | Bool(value: bool)
    | Number(numeral: NumberText)
    | String(text: string)
    | Array(items: seq<Json>)
    | Object(members: map<string, Json>)

  // Section 7 of RFC 8259, with the escapes JSON.stringify chooses.

  function HexDigit(d: nat): char
    requires d < 16
  {
    if d < 10 then '0' + d as char else 'a' + (d - 10) as char
  }

  function Escape(c: char): (r: string)
    ensures r != "" && r[0] != '"'
    ensures r[0] != '\\' ==> r == [c]
  {
    if c == '"' then "\\\""
    else if c == '\\' then "\\\\"
    else if c == '\U{0008}' then "\\b"
    else if c == '\U{000C}' then "\\f"
    else if c == '\n' then "\\n"
    else if c == '\r' then "\\r"
    else if c == '\t' then "\\t"
    else if c < ' ' then "\\u00" + [HexDigit(c as int / 16), HexDigit(c as int % 16)]
    else [c]
  }

  function EscapeAll(s: string): string {
    if s == "" then "" else Escape(s[0]) + EscapeAll(s[1..])
  }

  function Quote(s: string): string {
    "\"" + EscapeAll(s) + "\""
  }

  // `canonicalJson`: members in key order, no white space.

  function Canonical(v: Json): string
    decreases v, 1
  {
    match v
    case Null => "null"
    case Bool(b) => if b then "true" else "false"
    case Number(numeral) => numeral
    case String(s) => Quote(s)
    case Array(items) => "[" + JoinItems(items) + "]"
    case Object(members) => "{" + JoinMembers(v, Sorted(members.Keys)) + "}"
  }

  function JoinItems(items: seq<Json>): string
    decreases items, 0
  {
    if items == [] then ""
    else if |items| == 1 then Canonical(items[0])
    else Canonical(items[0]) + "," + JoinItems(items[1..])
  }

  function JoinMembers(v: Json, keys: seq<string>): string
    requires v.Object? && Members(keys) <= v.members.Keys
    decreases v, 0, |keys|
  {
    if keys == [] then ""
    else
      assert keys[0] in Members(keys) && Members(keys[1..]) <= Members(keys);
      var member := Quote(keys[0]) + ":" + Canonical(v.members[keys[0]]);
      if |keys| == 1 then member else member + "," + JoinMembers(v, keys[1..])
  }

  // Unique readability: what follows a value in a text is a delimiter or the
  // end, and then the text determines the value and the remainder.

  predicate Delimited(rest: string) {
    rest == "" || rest[0] in {',', ']', '}'}
  }

  lemma CancelPrefix(p: string, x: string, y: string)
    requires p + x == p + y
    ensures x == y
  {
    assert (p + x)[|p|..] == x && (p + y)[|p|..] == y;
  }

  lemma Assoc(x: string, y: string, z: string)
    ensures x + y + z == x + (y + z)
  {
  }

  lemma Regroup(p: string, x: string, q: string, r: string)
    ensures p + x + q + r == p + (x + (q + r))
  {
    Assoc(p + x, q, r);
    Assoc(p, x, q + r);
  }

  // What is between a bracket and the text after its partner.
  lemma Unwrap(p: string, x: string, y: string, q: string, r: string, s: string)
    requires p + x + q + r == p + y + q + s
    ensures x + (q + r) == y + (q + s)
  {
    Regroup(p, x, q, r);
    Regroup(p, y, q, s);
    CancelPrefix(p, x + (q + r), y + (q + s));
  }

  lemma EscapeReadable(c: char, d: char, r: string, s: string)
    requires Escape(c) + r == Escape(d) + s
    ensures c == d && r == s
  {
    var e, f := Escape(c), Escape(d);
    assert (e + r)[0] == e[0] && (f + s)[0] == f[0];
    if e[0] == '\\' {
      assert (e + r)[1] == e[1] && (f + s)[1] == f[1];
      if e[1] == 'u' {
        assert (e + r)[4] == e[4] && (f + s)[4] == f[4];
        assert (e + r)[5] == e[5] && (f + s)[5] == f[5];
      }
    }
    assert c == d;
    CancelPrefix(e, r, s);
  }

  lemma EscapeAllStep(a: string, t: string)
    requires a != ""
    ensures EscapeAll(a) + t == Escape(a[0]) + (EscapeAll(a[1..]) + t)
    ensures (EscapeAll(a) + t)[0] != '"'
  {
    var e, f := Escape(a[0]), EscapeAll(a[1..]);
    Assoc(e, f, t);
    assert (e + (f + t))[0] == e[0];
  }

  lemma {:induction false} EscapeAllReadable(a: string, b: string, r: string, s: string)
    requires EscapeAll(a) + ("\"" + r) == EscapeAll(b) + ("\"" + s)
    ensures a == b && r == s
    decreases |a|
  {
    var q, t := "\"" + r, "\"" + s;
    if a != "" { EscapeAllStep(a, q); }
    if b != "" { EscapeAllStep(b, t); }
    assert a == "" ==> EscapeAll(a) + q == q;
    assert b == "" ==> EscapeAll(b) + t == t;
    if a == "" {
      CancelPrefix("\"", r, s);
    } else {
      EscapeReadable(a[0], b[0], EscapeAll(a[1..]) + q, EscapeAll(b[1..]) + t);
      EscapeAllReadable(a[1..], b[1..], r, s);
      assert a == [a[0]] + a[1..] && b == [b[0]] + b[1..];
    }
  }

  lemma QuoteReadable(a: string, b: string, r: string, s: string)
    requires Quote(a) + r == Quote(b) + s
    ensures a == b && r == s
  {
    Unwrap("\"", EscapeAll(a), EscapeAll(b), "\"", r, s);
    EscapeAllReadable(a, b, r, s);
  }

  lemma NumeralReadable(m: string, n: string, r: string, s: string)
    requires (forall c | c in m :: IsNumeralChar(c)) && (forall c | c in n :: IsNumeralChar(c))
    requires Delimited(r) && Delimited(s)
    requires m + r == n + s
    ensures m == n && r == s
  {
    var t := m + r;
    assert |m| < |t| ==> t[|m|] == r[0];
    assert |n| < |t| ==> t[|n|] == s[0];
    assert forall i | 0 <= i < |m| :: t[i] in m;
    assert forall i | 0 <= i < |n| :: t[i] in n;
    assert |m| == |n|;
    assert m == t[..|m|] && n == t[..|n|];
    CancelPrefix(m, r, s);
  }

  // The first character tells the kinds of value apart.
  function Lead(v: Json): char {
    match v
    case Null => 'n'
    case Bool(b) => if b then 't' else 'f'
    case Number(numeral) => numeral[0]
    case String(_) => '"'
    case Array(_) => '['
    case Object(_) => '{'
  }

  lemma LeadOfCanonical(v: Json)
    ensures Canonical(v) != "" && Canonical(v)[0] == Lead(v)
    ensures v.Number? <==> IsNumeralChar(Lead(v))
    ensures Lead(v) !in {',', ']', '}'}
  {
    if v.Number? { assert v.numeral[0] in v.numeral; }
  }

  lemma {:induction false} Readable(a: Json, b: Json, r: string, s: string)
    requires Delimited(r) && Delimited(s)
    requires Canonical(a) + r == Canonical(b) + s
    ensures a == b && r == s
    decreases a, 2
  {
    LeadOfCanonical(a);
    LeadOfCanonical(b);
    assert (Canonical(a) + r)[0] == Lead(a) && (Canonical(b) + s)[0] == Lead(b);
    match a
    case Null => CancelPrefix("null", r, s);
    case Bool(_) => CancelPrefix(Canonical(a), r, s);
    case Number(m) => NumeralReadable(m, b.numeral, r, s);
    case String(x) => QuoteReadable(x, b.text, r, s);
    case Array(_) => ArrayReadable(a, b, r, s);
    case Object(_) => ObjectReadable(a, b, r, s);
  }

  lemma {:induction false} ArrayReadable(a: Json, b: Json, r: string, s: string)
    requires a.Array? && b.Array?
    requires Canonical(a) + r == Canonical(b) + s
    ensures a == b && r == s
    decreases a, 1
  {
    Unwrap("[", JoinItems(a.items), JoinItems(b.items), "]", r, s);
    ItemsReadable(a.items, b.items, r, s);
  }

  lemma SameMembers(m: map<string, Json>, n: map<string, Json>, keys: seq<string>)
    requires m.Keys == Members(keys) == n.Keys
    requires forall k | k in keys :: k in m && k in n && m[k] == n[k]
    ensures m == n
  {
    assert forall k | k in m :: k in Members(keys);
  }

  lemma {:induction false} ObjectReadable(a: Json, b: Json, r: string, s: string)
    requires a.Object? && b.Object?
    requires Canonical(a) + r == Canonical(b) + s
    ensures a == b && r == s
    decreases a, 1
  {
    var ka, kb := Sorted(a.members.Keys), Sorted(b.members.Keys);
    Unwrap("{", JoinMembers(a, ka), JoinMembers(b, kb), "}", r, s);
    MembersReadable(a, b, ka, kb, r, s);
    SameMembers(a.members, b.members, ka);
  }

  // After the first item: the closing bracket, or a comma and the other items.
  function ItemsTail(items: seq<Json>, rest: string): string
    requires items != []
  {
    if |items| == 1 then "]" + rest else "," + (JoinItems(items[1..]) + ("]" + rest))
  }

  lemma ItemsSplit(items: seq<Json>, rest: string)
    requires items != []
    ensures JoinItems(items) + ("]" + rest) == Canonical(items[0]) + ItemsTail(items, rest)
    ensures (JoinItems(items) + ("]" + rest))[0] == Lead(items[0])
  {
    LeadOfCanonical(items[0]);
    if |items| > 1 { Regroup(Canonical(items[0]), ",", JoinItems(items[1..]), "]" + rest); }
  }

  lemma {:induction false} ItemsReadable(xs: seq<Json>, ys: seq<Json>, r: string, s: string)
    requires JoinItems(xs) + ("]" + r) == JoinItems(ys) + ("]" + s)
    ensures xs == ys && r == s
    decreases xs, 0, 1
  {
    var tx, ty := JoinItems(xs) + ("]" + r), JoinItems(ys) + ("]" + s);
    if xs != [] { LeadOfCanonical(xs[0]); ItemsSplit(xs, r); }
    if ys != [] { LeadOfCanonical(ys[0]); ItemsSplit(ys, s); }
    assert xs == [] ==> tx == "]" + r;
    assert ys == [] ==> ty == "]" + s;
    if xs == [] {
      CancelPrefix("]", r, s);
    } else {
      Readable(xs[0], ys[0], ItemsTail(xs, r), ItemsTail(ys, s));
      TailReadable(xs, ys, r, s);
    }
  }

  lemma {:induction false} TailReadable(xs: seq<Json>, ys: seq<Json>, r: string, s: string)
    requires xs != [] && ys != [] && xs[0] == ys[0]
    requires ItemsTail(xs, r) == ItemsTail(ys, s)
    ensures xs == ys && r == s
    decreases xs, 0, 0
  {
    var x, y := xs[1..], ys[1..];
    assert xs == [xs[0]] + x && ys == [ys[0]] + y;
    var rx, ry := ItemsTail(xs, r), ItemsTail(ys, s);
    assert rx[0] == (if x == [] then ']' else ',') && ry[0] == (if y == [] then ']' else ',');
    if x == [] {
      CancelPrefix("]", r, s);
    } else {
      CancelPrefix(",", JoinItems(x) + ("]" + r), JoinItems(y) + ("]" + s));
      ItemsReadable(x, y, r, s);
    }
  }

  function MembersTail(v: Json, keys: seq<string>, rest: string): string
    requires v.Object? && Members(keys) <= v.members.Keys && keys != []
  {
    if |keys| == 1 then "}" + rest
    else
      assert Members(keys[1..]) <= Members(keys);
      "," + (JoinMembers(v, keys[1..]) + ("}" + rest))
  }

  lemma MembersSplit(v: Json, keys: seq<string>, rest: string)
    requires v.Object? && Members(keys) <= v.members.Keys && keys != []
    ensures keys[0] in v.members
    ensures JoinMembers(v, keys) + ("}" + rest)
         == Quote(keys[0]) + (":" + (Canonical(v.members[keys[0]]) + MembersTail(v, keys, rest)))
    ensures (JoinMembers(v, keys) + ("}" + rest))[0] == '"'
  {
    assert keys[0] in Members(keys);
    var q, w := Quote(keys[0]), Canonical(v.members[keys[0]]);
    var tail := MembersTail(v, keys, rest);
    Assoc(q, ":", w);
    if |keys| == 1 {
      Assoc(q, ":" + w, tail);
    } else {
      assert Members(keys[1..]) <= Members(keys);
      Regroup(q + ":" + w, ",", JoinMembers(v, keys[1..]), "}" + rest);
      Assoc(q, ":" + w, tail);
    }
    Assoc(":", w, tail);
  }

  lemma {:induction false} MembersReadable(a: Json, b: Json, ka: seq<string>, kb: seq<string>, r: string, s: string)
    requires a.Object? && Members(ka) <= a.members.Keys
    requires b.Object? && Members(kb) <= b.members.Keys
    requires JoinMembers(a, ka) + ("}" + r) == JoinMembers(b, kb) + ("}" + s)
    ensures ka == kb && r == s
    ensures forall k | k in ka :: k in a.members && k in b.members && a.members[k] == b.members[k]
    decreases a, 0, |ka|
  {
    hide Quote, Canonical;
    var ta, tb := JoinMembers(a, ka) + ("}" + r), JoinMembers(b, kb) + ("}" + s);
    if ka != [] { MembersSplit(a, ka, r); }
    if kb != [] { MembersSplit(b, kb, s); }
    assert ka == [] <==> kb == [];
    if ka == [] {
      assert ta == "}" + r && tb == "}" + s;
      CancelPrefix("}", r, s);
    } else {
      var va, vb := a.members[ka[0]], b.members[kb[0]];
      var ra, rb := MembersTail(a, ka, r), MembersTail(b, kb, s);
      QuoteReadable(ka[0], kb[0], ":" + (Canonical(va) + ra), ":" + (Canonical(vb) + rb));
      CancelPrefix(":", Canonical(va) + ra, Canonical(vb) + rb);
      Readable(va, vb, ra, rb);
      assert ra[0] == rb[0];
      assert |ka| == 1 <==> |kb| == 1;
      if |ka| == 1 {
        CancelPrefix("}", r, s);
        assert ka == [ka[0]] && kb == [kb[0]];
      } else {
        assert Members(ka[1..]) <= Members(ka) && Members(kb[1..]) <= Members(kb);
        CancelPrefix(",", JoinMembers(a, ka[1..]) + ("}" + r), JoinMembers(b, kb[1..]) + ("}" + s));
        MembersReadable(a, b, ka[1..], kb[1..], r, s);
        assert ka == [ka[0]] + ka[1..] && kb == [kb[0]] + kb[1..];
      }
    }
  }

  // Equal texts exactly for equal values; objects are equal as maps, so key
  // order is the one thing the text forgets.
  lemma CanonicalInjective(a: Json, b: Json)
    ensures Canonical(a) == Canonical(b) <==> a == b
  {
    if Canonical(a) == Canonical(b) {
      assert Canonical(a) + "" == Canonical(b) + "";
      Readable(a, b, "", "");
    }
  }
}
