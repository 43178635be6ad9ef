// The login limiter: failure counts per key in windows that open with a failure.

module RateLimiter {
  import opened Numbers

  datatype Bucket = Bucket(count: nat, resetAt: int)

  type Buckets = map<string, Bucket>

  datatype Options = Options(max: nat, windowMs: int)

  function CeilSeconds(ms: int): int { (ms + 999) / 1000 }

  // ---------- The four operations on the buckets ----------

  predicate Blocks(buckets: Buckets, k: string, now: int, o: Options) {
    k in buckets && now < buckets[k].resetAt && buckets[k].count >= o.max
  }

  function WaitFrom(buckets: Buckets, keys: seq<string>, now: int, o: Options, wait: int): int
    decreases |keys|
  {
    if keys == [] then wait
    else WaitFrom(buckets, keys[1..], now, o,
                  if Blocks(buckets, keys[0], now, o)
                  then Max(wait, CeilSeconds(buckets[keys[0]].resetAt - now)) else wait)
  }

  function Wait(buckets: Buckets, keys: seq<string>, now: int, o: Options): int {
    WaitFrom(buckets, keys, now, o, 0)
  }

  function RecordOne(buckets: Buckets, k: string, now: int, o: Options): Buckets {
    if k !in buckets || now >= buckets[k].resetAt then buckets[k := Bucket(1, now + o.windowMs)]
    else buckets[k := buckets[k].(count := buckets[k].count + 1)]
  }

  function Record(buckets: Buckets, keys: seq<string>, now: int, o: Options): Buckets
    decreases |keys|
  {
    if keys == [] then buckets else Record(RecordOne(buckets, keys[0], now, o), keys[1..], now, o)
  }

  function Cleared(buckets: Buckets, keys: seq<string>): Buckets {
    map k | k in buckets && k !in keys :: buckets[k]
  }

  function Swept(buckets: Buckets, now: int): Buckets {
    map k | k in buckets && now < buckets[k].resetAt :: buckets[k]
  }

  class LoginRateLimiter {
    const options: Options
    var buckets: Buckets

    constructor (options: Options := Options(8, 5 * 60_000))
      ensures this.options == options && buckets == map[]
    {
      this.options := options;
      buckets := map[];
    }

    method RetryAfter(keys: seq<string>, now: int) returns (wait: int)
      ensures wait == Wait(buckets, keys, now, options)
    {
      wait := 0;
      for i := 0 to |keys|
        invariant WaitFrom(buckets, keys[i..], now, options, wait) == Wait(buckets, keys, now, options)
      {
        var k := keys[i];
        assert keys[i..][1..] == keys[i + 1..];
        if k in buckets && now < buckets[k].resetAt && buckets[k].count >= options.max {
          wait := Max(wait, CeilSeconds(buckets[k].resetAt - now));
        }
      }
    }

    method RecordFailure(keys: seq<string>, now: int)
      modifies this`buckets
      ensures buckets == Record(old(buckets), keys, now, options)
    {
      for i := 0 to |keys|
        invariant Record(buckets, keys[i..], now, options) == Record(old(buckets), keys, now, options)
      {
        var k := keys[i];
        assert keys[i..][1..] == keys[i + 1..];
        if k !in buckets || now >= buckets[k].resetAt {
          buckets := buckets[k := Bucket(1, now + options.windowMs)];
        } else {
          buckets := buckets[k := Bucket(buckets[k].count + 1, buckets[k].resetAt)];
        }
      }
    }

    method Clear(keys: seq<string>)
      modifies this`buckets
      ensures buckets == Cleared(old(buckets), keys)
    {
      for i := 0 to |keys|
        invariant buckets == Cleared(old(buckets), keys[..i])
      {
        assert keys[..i + 1] == keys[..i] + [keys[i]];
        buckets := buckets - {keys[i]};
      }
      assert keys[..|keys|] == keys;
    }

    method Sweep(now: int)
      modifies this`buckets
      ensures buckets == Swept(old(buckets), now)
    {
      var left := buckets.Keys;
      while left != {}
        invariant left <= buckets.Keys <= old(buckets).Keys
        invariant forall k | k in buckets :: buckets[k] == old(buckets)[k]
        invariant forall k | k in old(buckets) && k !in left :: k in buckets <==> now < old(buckets)[k].resetAt
        decreases |left|
      {
        var k :| k in left;
        left := left - {k};
        if now >= buckets[k].resetAt {
          buckets := buckets - {k};
        }
      }
    }
  }

  // ---------- Waiting ----------

  lemma {:induction false} WaitFromLaws(buckets: Buckets, keys: seq<string>, now: int, o: Options, wait: int)
    ensures WaitFrom(buckets, keys, now, o, wait) >= wait
    ensures forall k | k in keys && Blocks(buckets, k, now, o) ::
              WaitFrom(buckets, keys, now, o, wait) >= CeilSeconds(buckets[k].resetAt - now)
    ensures WaitFrom(buckets, keys, now, o, wait) == wait
            || exists k :: k in keys && Blocks(buckets, k, now, o)
                 && WaitFrom(buckets, keys, now, o, wait) == CeilSeconds(buckets[k].resetAt - now)
    decreases |keys|
  {
    hide CeilSeconds;
    if keys != [] {
      var next := if Blocks(buckets, keys[0], now, o)
                  then Max(wait, CeilSeconds(buckets[keys[0]].resetAt - now)) else wait;
      WaitFromLaws(buckets, keys[1..], now, o, next);
      assert forall k | k in keys :: k == keys[0] || k in keys[1..];
    }
  }

  // The answer is zero exactly when no key blocks.
  lemma WaitsIffBlocked(buckets: Buckets, keys: seq<string>, now: int, o: Options)
    ensures Wait(buckets, keys, now, o) >= 0
    ensures Wait(buckets, keys, now, o) == 0 <==> forall k | k in keys :: !Blocks(buckets, k, now, o)
  {
    hide WaitFrom;
    WaitFromLaws(buckets, keys, now, o, 0);
  }

  // It is the exact number of whole seconds: with no new failure all keys pass from
  // then on, and up to a second earlier at least one still blocks.
  lemma WaitIsExact(buckets: Buckets, keys: seq<string>, now: int, o: Options, later: int)
    requires later >= now
    ensures var w := Wait(buckets, keys, now, o);
      && (later >= now + 1000 * w ==> Wait(buckets, keys, later, o) == 0)
      && (w > 0 && later <= now + 1000 * (w - 1) ==> Wait(buckets, keys, later, o) > 0)
  {
    hide WaitFrom;
    WaitFromLaws(buckets, keys, now, o, 0);
    WaitsIffBlocked(buckets, keys, later, o);
    var w := Wait(buckets, keys, now, o);
    if w > 0 {
      var k :| k in keys && Blocks(buckets, k, now, o) && w == CeilSeconds(buckets[k].resetAt - now);
      assert later <= now + 1000 * (w - 1) ==> Blocks(buckets, k, later, o);
    }
    forall k | k in keys && Blocks(buckets, k, later, o) ensures later < now + 1000 * w {
      assert Blocks(buckets, k, now, o);
    }
  }

  // A successful login forgets its keys and no other: none of them blocks, at any time.
  lemma ClearForgets(buckets: Buckets, keys: seq<string>, k: string, now: int, o: Options)
    ensures k in keys ==> k !in Cleared(buckets, keys) && !Blocks(Cleared(buckets, keys), k, now, o)
    ensures k !in keys ==> (k in Cleared(buckets, keys) <==> k in buckets)
    ensures k !in keys && k in buckets ==> Cleared(buckets, keys)[k] == buckets[k]
    ensures Wait(Cleared(buckets, keys), keys, now, o) == 0
  {
    hide Wait;
    WaitsIffBlocked(Cleared(buckets, keys), keys, now, o);
  }

  // A sweep keeps exactly the windows still open; it changes no later answer, and no
  // failure recorded later counts otherwise.
  lemma SweepIsUnseen(buckets: Buckets, at: int, keys: seq<string>, now: int, o: Options)
    requires at <= now
    ensures forall k :: k in Swept(buckets, at) <==> k in buckets && buckets[k].resetAt > at
    ensures Wait(Swept(buckets, at), keys, now, o) == Wait(buckets, keys, now, o)
    ensures Swept(Record(Swept(buckets, at), keys, now, o), now) == Swept(Record(buckets, keys, now, o), now)
  {
    SameWaits(Swept(buckets, at), buckets, keys, now, o, 0);
    SameRecords(Swept(buckets, at), buckets, keys, now, o);
  }

  // Two states that differ only in windows that are over.
  predicate SameOpen(a: Buckets, b: Buckets, now: int) {
    Swept(a, now) == Swept(b, now)
  }

  lemma {:induction false} SameWaits(a: Buckets, b: Buckets, keys: seq<string>, now: int, o: Options, wait: int)
    requires SameOpen(a, b, now)
    ensures WaitFrom(a, keys, now, o, wait) == WaitFrom(b, keys, now, o, wait)
    decreases |keys|
  {
    if keys != [] {
      var k := keys[0];
      assert k in Swept(a, now) <==> k in Swept(b, now);
      assert k in Swept(a, now) ==> Swept(a, now)[k] == a[k] && Swept(b, now)[k] == b[k];
      SameWaits(a, b, keys[1..], now, o,
                if Blocks(a, k, now, o) then Max(wait, CeilSeconds(a[k].resetAt - now)) else wait);
    }
  }

  lemma {:induction false} SameRecords(a: Buckets, b: Buckets, keys: seq<string>, now: int, o: Options)
    requires SameOpen(a, b, now)
    ensures SameOpen(Record(a, keys, now, o), Record(b, keys, now, o), now)
    decreases |keys|
  {
    if keys != [] {
      var k := keys[0];
      assert k in Swept(a, now) <==> k in Swept(b, now);
      assert k in Swept(a, now) ==> Swept(a, now)[k] == a[k] && Swept(b, now)[k] == b[k];
      assert forall j | j in Swept(a, now) :: j in Swept(b, now) && a[j] == b[j];
      assert forall j | j in Swept(b, now) :: j in Swept(a, now) && a[j] == b[j];
      SameRecords(RecordOne(a, k, now, o), RecordOne(b, k, now, o), keys[1..], now, o);
    }
  }

  // ---------- Runs ----------

  // An attempt is let through when it need not wait; a failed one is then recorded.
  datatype Event =
    | Attempt(keys: seq<string>, now: int, fails: bool)
    | Clear(keys: seq<string>)
    | Sweep(now: int)

  predicate Through(buckets: Buckets, ev: Event, o: Options) {
    ev.Attempt? && ev.fails && Wait(buckets, ev.keys, ev.now, o) == 0
  }

  function Step(buckets: Buckets, ev: Event, o: Options): Buckets {
    match ev
    case Attempt(keys, now, _) => if Through(buckets, ev, o) then Record(buckets, keys, now, o) else buckets
    case Clear(keys) => Cleared(buckets, keys)
    case Sweep(now) => Swept(buckets, now)
  }

  // The times at which failures on key k were let through.
  function Failures(buckets: Buckets, evs: seq<Event>, k: string, o: Options): seq<int>
    decreases |evs|
  {
    if evs == [] then []
    else
      var rest := Failures(Step(buckets, evs[0], o), evs[1..], k, o);
      if Through(buckets, evs[0], o) && k in evs[0].keys then [evs[0].now] + rest else rest
  }

  // A key listed m times in a recorded failure counts m more, in its open window or in a
  // new one; every other key keeps its bucket.
  lemma {:induction false} RecordCounts(buckets: Buckets, keys: seq<string>, now: int, o: Options, k: string)
    requires o.windowMs > 0
    ensures var after, m := Record(buckets, keys, now, o), multiset(keys)[k];
      if m == 0 then (k in after <==> k in buckets) && (k in buckets ==> after[k] == buckets[k])
      else
        && k in after
        && after[k] == if k in buckets && now < buckets[k].resetAt then
                         Bucket(buckets[k].count + m, buckets[k].resetAt)
                       else Bucket(m, now + o.windowMs)
    decreases |keys|
  {
    if keys != [] {
      assert keys == [keys[0]] + keys[1..];
      RecordCounts(RecordOne(buckets, keys[0], now, o), keys[1..], now, o, k);
    }
  }

  // An attempt changes something only if it fails and none of its keys is in an open
  // window with max failures; then it counts once more on each listed key.
  lemma AttemptOutcome(buckets: Buckets, keys: seq<string>, now: int, fails: bool, o: Options, k: string)
    requires o.windowMs > 0
    ensures var after, m := Step(buckets, Attempt(keys, now, fails), o), multiset(keys)[k];
      var through := fails && forall j | j in keys && j in buckets && now < buckets[j].resetAt ::
                                buckets[j].count < o.max;
      && (!through ==> after == buckets)
      && (through && m == 0 ==> (k in after <==> k in buckets) && (k in buckets ==> after[k] == buckets[k]))
      && (through && m > 0 ==>
            && k in after
            && after[k] == if k in buckets && now < buckets[k].resetAt then
                             Bucket(buckets[k].count + m, buckets[k].resetAt)
                           else Bucket(m, now + o.windowMs))
  {
    hide Wait, Record;
    WaitsIffBlocked(buckets, keys, now, o);
    RecordCounts(buckets, keys, now, o, k);
  }

  // The clock does not go back, and no event clears key k.
  predicate Chronological(evs: seq<Event>, k: string, from: int)
    decreases |evs|
  {
    evs == []
    || match evs[0]
       case Clear(keys) => k !in keys && Chronological(evs[1..], k, from)
       case Attempt(_, now, _) => from <= now && Chronological(evs[1..], k, now)
       case Sweep(now) => from <= now && Chronological(evs[1..], k, now)
  }

  // ---------- Windows ----------

  predicate Limits(o: Options) {
    o.max >= 1 && o.windowMs > 0
  }

  ghost predicate InOrder(f: seq<int>, now: int) {
    && (forall i, j | 0 <= i < j < |f| :: f[i] <= f[j])
    && (forall i | 0 <= i < |f| :: f[i] <= now)
  }

  // Any c + 1 failures in a row span at least the gap.
  ghost predicate Apart(f: seq<int>, c: nat, gap: int) {
    forall i, j | 0 <= i < |f| && 0 <= j < |f| && j == i + c :: f[j] - f[i] >= gap
  }

  // Any 2 * max failures in a row span the window, and one more spans more than it.
  ghost predicate Spaced(f: seq<int>, o: Options)
    requires Limits(o)
  {
    Apart(f, 2 * o.max - 1, o.windowMs) && Apart(f, 2 * o.max, o.windowMs + 1)
  }

  // The failures so far fall into windows; `prev` and `cur` are where the last two
  // began. A window takes at most max failures and the next one opens after its end.
  ghost predicate Windows(f: seq<int>, prev: nat, cur: nat, now: int, o: Options)
    requires Limits(o)
  {
    && InOrder(f, now) && Spaced(f, o)
    && prev <= cur <= |f| && (f == [] ==> cur == 0) && (f != [] ==> cur < |f|)
    && cur - prev <= o.max && |f| - cur <= o.max
    && (if prev < cur then f[prev] + o.windowMs <= f[cur] else cur == 0)
    && (forall i | 0 <= i < prev :: f[i] < f[prev])
    && (forall i | 0 <= i < cur :: f[i] < f[cur])
    && (forall i | 0 <= i < |f| :: f[i] < f[cur] + o.windowMs)
  }

  // The bucket of key k is the open window; without one, the window is over.
  ghost predicate Tracks(buckets: Buckets, k: string, f: seq<int>, cur: nat, now: int, o: Options) {
    if f == [] then k !in buckets
    else
      && cur < |f|
      && if k in buckets then
           buckets[k].resetAt == f[cur] + o.windowMs && buckets[k].count >= |f| - cur
         else now >= f[cur] + o.windowMs
  }

  lemma StaysApart(f: seq<int>, c: nat, gap: int, at: int)
    requires Apart(f, c, gap) && c > 0
    requires |f| >= c ==> f[|f| - c] + gap <= at
    ensures Apart(f + [at], c, gap)
  {
  }

  // A failure inside the open window, which still has room.
  lemma JoinsWindow(f: seq<int>, prev: nat, cur: nat, now: int, o: Options, at: int)
    requires Limits(o) && Windows(f, prev, cur, now, o) && now <= at
    requires f != [] && at < f[cur] + o.windowMs && |f| - cur < o.max
    ensures Windows(f + [at], prev, cur, at, o)
  {
    hide Apart, Spaced;
    JoinsSpaced(f, prev, cur, now, o, at);
  }

  lemma JoinsSpaced(f: seq<int>, prev: nat, cur: nat, now: int, o: Options, at: int)
    requires Limits(o) && Windows(f, prev, cur, now, o) && now <= at
    requires f != [] && at < f[cur] + o.windowMs && |f| - cur < o.max
    ensures Spaced(f + [at], o)
  {
    hide Apart;
    assert f[cur] <= at;
    var i, i' := |f| - (2 * o.max - 1), |f| - 2 * o.max;
    assert i >= 0 ==> i <= prev < cur && f[i] <= f[prev];
    assert i' >= 0 ==> i' < prev < cur && f[i'] < f[prev];
    StaysApart(f, 2 * o.max - 1, o.windowMs, at);
    StaysApart(f, 2 * o.max, o.windowMs + 1, at);
  }

  // A failure after its end opens the next one.
  lemma OpensWindow(f: seq<int>, prev: nat, cur: nat, now: int, o: Options, at: int)
    requires Limits(o) && Windows(f, prev, cur, now, o) && now <= at
    requires f != [] ==> at >= f[cur] + o.windowMs
    ensures Windows(f + [at], cur, |f|, at, o)
  {
    hide Apart, Spaced;
    OpensSpaced(f, prev, cur, now, o, at);
  }

  lemma OpensSpaced(f: seq<int>, prev: nat, cur: nat, now: int, o: Options, at: int)
    requires Limits(o) && Windows(f, prev, cur, now, o) && now <= at
    requires f != [] ==> at >= f[cur] + o.windowMs
    ensures Spaced(f + [at], o)
  {
    hide Apart;
    var i, i' := |f| - (2 * o.max - 1), |f| - 2 * o.max;
    assert i >= 0 ==> i <= cur && f[i] <= f[cur];
    assert i' >= 0 ==> i' < cur && f[i'] < f[cur];
    StaysApart(f, 2 * o.max - 1, o.windowMs, at);
    StaysApart(f, 2 * o.max, o.windowMs + 1, at);
  }

  lemma {:induction false} RecordOnKey(buckets: Buckets, keys: seq<string>, now: int, o: Options, k: string)
    requires Limits(o)
    ensures var after := Record(buckets, keys, now, o);
      if k !in keys then (k in after <==> k in buckets) && (k in buckets ==> after[k] == buckets[k])
      else
        && k in after
        && if k in buckets && now < buckets[k].resetAt then
             after[k].resetAt == buckets[k].resetAt && after[k].count > buckets[k].count
           else after[k].resetAt == now + o.windowMs && after[k].count >= 1
    decreases |keys|
  {
    if keys != [] {
      RecordOnKey(RecordOne(buckets, keys[0], now, o), keys[1..], now, o, k);
    }
  }

  lemma {:induction false} FailuresInWindows(buckets: Buckets, evs: seq<Event>, k: string, o: Options, f: seq<int>,
                                             prev: nat, cur: nat, now: int)
    requires Limits(o) && Windows(f, prev, cur, now, o) && Tracks(buckets, k, f, cur, now, o)
    requires Chronological(evs, k, now)
    ensures Spaced(f + Failures(buckets, evs, k, o), o)
    ensures exists end :: InOrder(f + Failures(buckets, evs, k, o), end)
    decreases |evs|
  {
    hide Wait, Record, Spaced, Windows;
    if evs == [] {
      assert f + [] == f;
      assert InOrder(f, now) && Spaced(f, o) by { WindowsGive(f, prev, cur, now, o); }
    } else {
      var ev, next := evs[0], Step(buckets, evs[0], o);
      var at := if ev.Clear? then now else ev.now;
      var rest := Failures(next, evs[1..], k, o);
      if Through(buckets, ev, o) && k in ev.keys {
        var f' := f + [at];
        assert f' + rest == f + ([at] + rest);
        RecordOnKey(buckets, ev.keys, at, o, k);
        WaitsIffBlocked(buckets, ev.keys, at, o);
        WindowsGive(f, prev, cur, now, o);
        if k in buckets && at < buckets[k].resetAt {
          JoinsWindow(f, prev, cur, now, o, at);
          FailuresInWindows(next, evs[1..], k, o, f', prev, cur, at);
        } else {
          OpensWindow(f, prev, cur, now, o, at);
          FailuresInWindows(next, evs[1..], k, o, f', cur, |f|, at);
        }
      } else {
        if Through(buckets, ev, o) { RecordOnKey(buckets, ev.keys, at, o, k); }
        LaterWindows(f, prev, cur, now, o, at);
        FailuresInWindows(next, evs[1..], k, o, f, prev, cur, at);
      }
    }
  }

  lemma WindowsGive(f: seq<int>, prev: nat, cur: nat, now: int, o: Options)
    requires Limits(o) && Windows(f, prev, cur, now, o)
    ensures InOrder(f, now) && Spaced(f, o)
    ensures f != [] ==> cur < |f|
  {
  }

  lemma LaterWindows(f: seq<int>, prev: nat, cur: nat, now: int, o: Options, at: int)
    requires Limits(o) && Windows(f, prev, cur, now, o) && now <= at
    ensures Windows(f, prev, cur, at, o)
  {
  }

  // ---------- The bound ----------

  // Which of the failures fall in [from, to).
  function Within(f: seq<int>, from: int, to: int): set<nat> {
    set i: nat | i < |f| && from <= f[i] < to
  }

  function Indices(m: nat, c: nat): (s: set<nat>)
    ensures |s| == c && forall i :: i in s <==> m <= i < m + c
    decreases c
  {
    if c == 0 then {} else Indices(m, c - 1) + {m + c - 1}
  }

  lemma AtMostInARow(f: seq<int>, now: int, from: int, to: int, c: nat)
    requires InOrder(f, now)
    requires Apart(f, c, to - from)
    ensures |Within(f, from, to)| <= c
  {
    var s := Within(f, from, to);
    if s != {} {
      var m := FirstWithin(f, from, to);
      assert m + c < |f| ==> f[m + c] >= f[m] + (to - from);
      assert forall i | i in s :: i in Indices(m, c);
      var all := Indices(m, c);
      assert all == s + (all - s);
    }
  }

  lemma FirstWithin(f: seq<int>, from: int, to: int) returns (m: nat)
    requires Within(f, from, to) != {}
    ensures m in Within(f, from, to) && forall i | i in Within(f, from, to) :: m <= i
  {
    m := 0;
    while m !in Within(f, from, to)
      invariant m <= |f| && forall i | i in Within(f, from, to) :: m <= i
      decreases |f| - m
    {
      m := m + 1;
    }
  }

  lemma NoFailuresYet(start: int, o: Options)
    requires Limits(o)
    ensures Windows([], 0, 0, start, o)
  {
  }

  // Without a clear of the key, any half-open interval of the window's length lets
  // through at most 2 * max - 1 failures on it, and a closed one at most 2 * max.
  lemma FailuresPerWindow(evs: seq<Event>, k: string, o: Options, start: int, from: int)
    requires Limits(o) && Chronological(evs, k, start)
    ensures var f := Failures(map[], evs, k, o);
      && |Within(f, from, from + o.windowMs)| <= 2 * o.max - 1
      && |Within(f, from, from + o.windowMs + 1)| <= 2 * o.max
  {
    hide Failures, Apart, InOrder, Within;
    var f := Failures(map[], evs, k, o);
    NoFailuresYet(start, o);
    FailuresInWindows(map[], evs, k, o, [], 0, 0, start);
    assert [] + f == f;
    var end :| InOrder(f, end);
    AtMostInARow(f, end, from, from + o.windowMs, 2 * o.max - 1);
    AtMostInARow(f, end, from, from + o.windowMs + 1, 2 * o.max);
  }

  // ---------- The bound is reached ----------

  // n failed attempts on one key at one time.
  function Burst(k: string, at: int, n: nat): seq<Event> {
    seq(n, i => Attempt([k], at, true))
  }

  lemma RecordSingle(buckets: Buckets, k: string, now: int, o: Options)
    ensures Record(buckets, [k], now, o) == RecordOne(buckets, k, now, o)
  {
    assert [k][1..] == [];
  }

  function Counted(buckets: Buckets, k: string, n: nat): Buckets
    requires k in buckets
  {
    buckets[k := Bucket(buckets[k].count + n, buckets[k].resetAt)]
  }

  lemma OneGoesThrough(buckets: Buckets, k: string, at: int, o: Options)
    requires Limits(o) && k in buckets && at < buckets[k].resetAt && buckets[k].count < o.max
    ensures Through(buckets, Attempt([k], at, true), o)
    ensures Step(buckets, Attempt([k], at, true), o) == Counted(buckets, k, 1)
  {
    WaitsIffBlocked(buckets, [k], at, o);
    RecordSingle(buckets, k, at, o);
  }

  lemma {:induction false} BurstGoesThrough(buckets: Buckets, k: string, at: int, n: nat, evs: seq<Event>, o: Options)
    requires Limits(o) && k in buckets && at < buckets[k].resetAt && buckets[k].count + n <= o.max
    ensures Failures(buckets, Burst(k, at, n) + evs, k, o)
         == seq(n, i => at) + Failures(Counted(buckets, k, n), evs, k, o)
    decreases n
  {
    hide Through, Step;
    if n == 0 {
      assert Burst(k, at, n) + evs == evs;
      assert Counted(buckets, k, 0) == buckets;
    } else {
      var all := Burst(k, at, n) + evs;
      assert all[0] == Attempt([k], at, true) && all[1..] == Burst(k, at, n - 1) + evs;
      var next := Counted(buckets, k, 1);
      OneGoesThrough(buckets, k, at, o);
      BurstGoesThrough(next, k, at, n - 1, evs, o);
      assert Counted(next, k, n - 1) == Counted(buckets, k, n);
      assert [at] + seq(n - 1, i => at) == seq(n, i => at);
    }
  }

  lemma FirstGoesThrough(buckets: Buckets, k: string, at: int, evs: seq<Event>, o: Options)
    requires Limits(o) && (k in buckets ==> buckets[k].resetAt <= at)
    ensures Failures(buckets, [Attempt([k], at, true)] + evs, k, o)
         == [at] + Failures(buckets[k := Bucket(1, at + o.windowMs)], evs, k, o)
  {
    var all := [Attempt([k], at, true)] + evs;
    assert all[0] == Attempt([k], at, true) && all[1..] == evs;
    WaitsIffBlocked(buckets, [k], at, o);
    RecordSingle(buckets, k, at, o);
    assert Step(buckets, all[0], o) == buckets[k := Bucket(1, at + o.windowMs)];
  }

  // One failure opens a window, the rest of it comes at its end, and a full window
  // follows at once.
  function WorstCase(k: string, o: Options): seq<Event>
    requires Limits(o)
  {
    [Attempt([k], 0, true)] + (Burst(k, o.windowMs - 1, o.max - 1)
    + ([Attempt([k], o.windowMs, true)] + (Burst(k, o.windowMs, o.max - 1) + [])))
  }

  lemma WorstCaseFailures(k: string, o: Options)
    requires Limits(o)
    ensures Failures(map[], WorstCase(k, o), k, o)
         == [0] + (seq(o.max - 1, i => o.windowMs - 1) + ([o.windowMs] + (seq(o.max - 1, i => o.windowMs) + [])))
  {
    hide Failures;
    var w := o.windowMs;
    var last := Burst(k, w, o.max - 1) + [];
    var second := [Attempt([k], w, true)] + last;
    var b1: Buckets := map[k := Bucket(1, w)];
    var b2 := b1[k := Bucket(o.max, w)];
    FirstGoesThrough(map[], k, 0, Burst(k, w - 1, o.max - 1) + second, o);
    BurstGoesThrough(b1, k, w - 1, o.max - 1, second, o);
    FirstGoesThrough(b2, k, w, last, o);
    var b3 := b2[k := Bucket(1, w + w)];
    BurstGoesThrough(b3, k, w, o.max - 1, [], o);
    NoMoreFailures(b3[k := Bucket(o.max, w + w)], k, o);
    assert map[][k := Bucket(1, 0 + w)] == b1;
  }

  lemma NoMoreFailures(buckets: Buckets, k: string, o: Options)
    ensures Failures(buckets, [], k, o) == []
  {
  }

  // In the worst case 2 * max - 1 failures fall into one interval of the window's
  // length, so the bound cannot be lowered.
  lemma BoundIsReached(k: string, o: Options)
    requires Limits(o) && o.windowMs > 1
    ensures |Within(Failures(map[], WorstCase(k, o), k, o), o.windowMs - 1, 2 * o.windowMs - 1)| == 2 * o.max - 1
  {
    hide Failures, WorstCase;
    WorstCaseFailures(k, o);
    var f := Failures(map[], WorstCase(k, o), k, o);
    assert |f| == 2 * o.max && f[0] == 0;
    assert forall i | 1 <= i < 2 * o.max :: f[i] == if i < o.max then o.windowMs - 1 else o.windowMs;
    assert Within(f, o.windowMs - 1, 2 * o.windowMs - 1) == Indices(1, 2 * o.max - 1);
  }
}
