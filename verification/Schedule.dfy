// A week mask of 168 hours as ranges of the days, and the search for the current and
// the next range. Times are milliseconds of local time since some Monday midnight,
// and every day has 24 hours.

module Schedule {
  import opened Wrappers

  const HOUR_MS: int := 3_600_000
  const DAY_MS: int := 86_400_000
  const MINUTE_MS: int := 60_000

  datatype Range = Range(startHour: nat, endHour: nat)

  datatype Occurrence = Occurrence(dayIndex: nat, dayOffset: nat, range: Range, startsAt: int, endsAt: int)

  predicate ValidMask(mask: string) {
    |mask| == 168 && forall i | 0 <= i < 168 :: mask[i] == '0' || mask[i] == '1'
  }

  predicate Bit(mask: string, day: nat, hour: int)
    requires ValidMask(mask) && day < 7
  {
    0 <= hour < 24 && mask[day * 24 + hour] == '1'
  }

  // ---------- normalizedMasks ----------

  function FullMask(): (m: string)
    ensures ValidMask(m) && forall i | 0 <= i < 168 :: m[i] == '1'
  {
    seq(168, i => '1')
  }

  function EmptyMask(): (m: string)
    ensures ValidMask(m)
  {
    seq(168, i => '0')
  }

  lemma ValidIff(mask: string)
    ensures ValidMask(mask) <==> |mask| == 168 && forall c | c in mask :: c == '0' || c == '1'
  {
    if |mask| == 168 && forall c | c in mask :: c == '0' || c == '1' {
      forall i | 0 <= i < 168 ensures mask[i] == '0' || mask[i] == '1' { assert mask[i] in mask; }
    }
  }

  function ActivityMask(raw: Option<string>): (m: string)
    ensures ValidMask(m)
    ensures var valid := raw.Some? && |raw.value| == 168 && forall c | c in raw.value :: c == '0' || c == '1';
      forall i | 0 <= i < 168 :: m[i] == '1' <==> (valid ==> raw.value[i] == '1')
  {
    ValidIff(raw.UnwrapOr(""));
    if raw.Some? && ValidMask(raw.value) then raw.value else FullMask()
  }

  function ContentMask(raw: Option<string>, activity: string): (m: string)
    requires ValidMask(activity)
    ensures ValidMask(m)
    ensures var valid := raw.Some? && |raw.value| == 168 && forall c | c in raw.value :: c == '0' || c == '1';
      forall i | 0 <= i < 168 :: m[i] == '1' <==> valid && raw.value[i] == '1' && activity[i] == '1'
  {
    ValidIff(raw.UnwrapOr(""));
    var base := if raw.Some? && ValidMask(raw.value) then raw.value else EmptyMask();
    seq(168, i requires 0 <= i < 168 => if base[i] == '1' && activity[i] == '1' then '1' else '0')
  }

  // ---------- rangesForDay ----------

  predicate StartsRun(mask: string, day: nat, hour: int)
    requires ValidMask(mask) && day < 7
  {
    Bit(mask, day, hour) && !Bit(mask, day, hour - 1)
  }

  // A maximal run of set hours of the day.
  predicate IsRun(r: Range, mask: string, day: nat)
    requires ValidMask(mask) && day < 7
  {
    && r.startHour < r.endHour <= 24
    && (forall hour | r.startHour <= hour < r.endHour :: Bit(mask, day, hour))
    && !Bit(mask, day, r.startHour - 1) && !Bit(mask, day, r.endHour)
  }

  predicate Separated(ranges: seq<Range>) {
    forall i, j | 0 <= i < j < |ranges| :: ranges[i].endHour < ranges[j].startHour
  }

  predicate Covered(ranges: seq<Range>, hour: int) {
    exists i | 0 <= i < |ranges| :: ranges[i].startHour <= hour < ranges[i].endHour
  }

  // Sorted, disjoint, maximal, and exactly the set hours up to `upTo`.
  predicate AreRunsUpTo(ranges: seq<Range>, mask: string, day: nat, upTo: int)
    requires ValidMask(mask) && day < 7
  {
    && Separated(ranges)
    && (forall i | 0 <= i < |ranges| :: IsRun(ranges[i], mask, day) && ranges[i].endHour <= upTo)
    && (forall hour | 0 <= hour < upTo && Bit(mask, day, hour) :: Covered(ranges, hour))
  }

  predicate AreRuns(ranges: seq<Range>, mask: string, day: nat)
    requires ValidMask(mask) && day < 7
  {
    AreRunsUpTo(ranges, mask, day, 24)
  }

  method RangesForDay(mask: string, day: nat) returns (ranges: seq<Range>)
    requires ValidMask(mask) && day < 7
    ensures AreRuns(ranges, mask, day)
  {
    ranges := [];
    var rangeStart: Option<nat> := None;
    for hour := 0 to 25
      invariant rangeStart.None? ==> AreRunsUpTo(ranges, mask, day, if hour == 25 then 24 else hour)
      invariant rangeStart.None? ==> !Bit(mask, day, hour - 1)
      invariant rangeStart.Some? ==>
        && rangeStart.value < hour <= 24
        && AreRunsUpTo(ranges, mask, day, rangeStart.value)
        && (forall h | rangeStart.value <= h < hour :: Bit(mask, day, h))
        && !Bit(mask, day, rangeStart.value - 1)
    {
      var active := hour < 24 && mask[day * 24 + hour] == '1';
      if active && rangeStart.None? {
        rangeStart := Some(hour);
      }
      if !active && rangeStart.Some? {
        AppendRun(ranges, mask, day, Range(rangeStart.value, hour));
        ranges := ranges + [Range(rangeStart.value, hour)];
        rangeStart := None;
      }
    }
  }

  lemma AppendRun(ranges: seq<Range>, mask: string, day: nat, r: Range)
    requires ValidMask(mask) && day < 7
    requires AreRunsUpTo(ranges, mask, day, r.startHour) && IsRun(r, mask, day)
    ensures AreRunsUpTo(ranges + [r], mask, day, r.endHour)
    ensures r.endHour < 24 ==> AreRunsUpTo(ranges + [r], mask, day, r.endHour + 1)
  {
    var all := ranges + [r];
    hide ValidMask;
    assert Bit(mask, day, r.startHour);
    assert forall i | 0 <= i < |ranges| :: IsRun(ranges[i], mask, day) && ranges[i].endHour < r.startHour;
    forall hour | 0 <= hour <= r.endHour && Bit(mask, day, hour) ensures Covered(all, hour) {
      if hour < r.startHour {
        var i :| 0 <= i < |ranges| && ranges[i].startHour <= hour < ranges[i].endHour;
        assert all[i] == ranges[i];
      } else {
        assert all[|ranges|] == r;
      }
    }
  }

  // An hour is set exactly when a range of its day covers it.
  lemma RangesCover(ranges: seq<Range>, mask: string, day: nat, hour: int)
    requires ValidMask(mask) && day < 7 && AreRuns(ranges, mask, day)
    ensures Bit(mask, day, hour) <==> Covered(ranges, hour)
  {
    if Covered(ranges, hour) {
      var i :| 0 <= i < |ranges| && ranges[i].startHour <= hour < ranges[i].endHour;
      assert IsRun(ranges[i], mask, day);
    }
  }

  lemma RunStarts(ranges: seq<Range>, mask: string, day: nat, hour: int)
    requires ValidMask(mask) && day < 7 && AreRuns(ranges, mask, day)
    ensures StartsRun(mask, day, hour) <==> exists i | 0 <= i < |ranges| :: ranges[i].startHour == hour
  {
    if StartsRun(mask, day, hour) {
      assert Covered(ranges, hour);
      var i :| 0 <= i < |ranges| && ranges[i].startHour <= hour < ranges[i].endHour;
      assert IsRun(ranges[i], mask, day);
    }
    if i :| 0 <= i < |ranges| && ranges[i].startHour == hour {
      assert IsRun(ranges[i], mask, day);
    }
  }

  lemma SetInRun(r: Range, mask: string, day: nat, hour: int)
    requires ValidMask(mask) && day < 7 && IsRun(r, mask, day)
    ensures r.startHour <= hour < r.endHour ==> Bit(mask, day, hour)
  {
  }

  // Runs that share an hour are one.
  lemma RunsAreOne(r: Range, q: Range, mask: string, day: nat, hour: int)
    requires ValidMask(mask) && day < 7 && IsRun(r, mask, day) && IsRun(q, mask, day)
    requires r.startHour <= hour < r.endHour && q.startHour <= hour < q.endHour
    ensures r == q
  {
    SetInRun(r, mask, day, q.startHour - 1);
    SetInRun(q, mask, day, r.startHour - 1);
    SetInRun(q, mask, day, r.endHour);
    SetInRun(r, mask, day, q.endHour);
  }

  lemma RunAt(ranges: seq<Range>, mask: string, day: nat, hour: int) returns (i: nat)
    requires ValidMask(mask) && day < 7 && AreRuns(ranges, mask, day) && Bit(mask, day, hour)
    ensures i < |ranges| && IsRun(ranges[i], mask, day) && ranges[i].startHour <= hour < ranges[i].endHour
  {
    assert Covered(ranges, hour);
    i :| 0 <= i < |ranges| && ranges[i].startHour <= hour < ranges[i].endHour;
  }

  // The run of one list is somewhere in the other.
  lemma RunOfOther(a: seq<Range>, b: seq<Range>, mask: string, day: nat, n: nat) returns (j: nat)
    requires ValidMask(mask) && day < 7 && AreRuns(a, mask, day) && AreRuns(b, mask, day) && n < |a|
    ensures j < |b| && b[j] == a[n]
  {
    assert IsRun(a[n], mask, day) && Bit(mask, day, a[n].startHour);
    j := RunAt(b, mask, day, a[n].startHour);
    RunsAreOne(a[n], b[j], mask, day, a[n].startHour);
  }

  lemma SeparatedRunsDiffer(ranges: seq<Range>, mask: string, day: nat)
    requires ValidMask(mask) && day < 7 && AreRuns(ranges, mask, day)
    ensures forall i, j | 0 <= i < j < |ranges| :: ranges[i].startHour < ranges[j].startHour
  {
    assert forall i | 0 <= i < |ranges| :: IsRun(ranges[i], mask, day);
  }

  // Only one list of ranges describes a day.
  lemma {:induction false} RangesUnique(a: seq<Range>, b: seq<Range>, mask: string, day: nat, n: nat)
    requires ValidMask(mask) && day < 7 && AreRuns(a, mask, day) && AreRuns(b, mask, day)
    requires n <= |a|
    ensures n <= |b| && forall i | 0 <= i < n :: a[i] == b[i]
    ensures n == |a| ==> a == b
    decreases n
  {
    hide AreRuns, ValidMask;
    SeparatedRunsDiffer(a, mask, day);
    SeparatedRunsDiffer(b, mask, day);
    if n > 0 {
      RangesUnique(a, b, mask, day, n - 1);
      var j := RunOfOther(a, b, mask, day, n - 1);
      var i := RunOfOther(b, a, mask, day, n - 1);
      assert n - 1 <= j && n - 1 <= i;
    }
    if n == |a| < |b| {
      var i := RunOfOther(b, a, mask, day, n);
      assert false;
    }
  }

  // ---------- Occurrences ----------

  // Hours since the Monday midnight times are counted from.
  predicate SetAt(mask: string, h: int)
    requires ValidMask(mask)
  {
    mask[h % 168] == '1'
  }

  // A day's ranges do not run on across midnight.
  predicate StartsAt(mask: string, h: int)
    requires ValidMask(mask)
  {
    SetAt(mask, h) && (h % 24 == 0 || !SetAt(mask, h - 1))
  }

  function Day(now: int): int { now / DAY_MS }

  function DayIndex(now: int): nat { Day(now) % 7 }

  lemma SameRemainder(x: int, d: int, q: int, r: int)
    requires d in {7, 24, 168}
    requires x == d * q + r && 0 <= r < d
    ensures x / d == q && x % d == r
  {
  }

  // Week, day and hour of an hour since the Monday midnight.
  lemma HourParts(h: int)
    ensures var day, hour := (h % 168) / 24, (h % 168) % 24;
      && (h / 24) % 7 == day && h % 24 == hour && h % 168 == day * 24 + hour
      && (hour != 0 ==> (h - 1) % 168 == day * 24 + hour - 1)
  {
    var q, r := h / 168, h % 168;
    var day, hour := r / 24, r % 24;
    SameRemainder(h, 24, 7 * q + day, hour);
    SameRemainder(7 * q + day, 7, q, day);
    if hour != 0 { SameRemainder(h - 1, 168, q, r - 1); }
  }

  lemma HourOfDay(mask: string, h: int)
    requires ValidMask(mask)
    ensures SetAt(mask, h) <==> Bit(mask, (h / 24) % 7, h % 24)
    ensures StartsAt(mask, h) <==> StartsRun(mask, (h / 24) % 7, h % 24)
  {
    HourParts(h);
  }

  function LocalOccurrence(now: int, dayOffset: nat, range: Range): Occurrence {
    var midnight := (Day(now) + dayOffset) * DAY_MS;
    Occurrence((DayIndex(now) + dayOffset) % 7, dayOffset, range,
               midnight + range.startHour * HOUR_MS, midnight + range.endHour * HOUR_MS)
  }

  predicate DaysOf(days: seq<seq<Range>>, mask: string)
    requires ValidMask(mask)
  {
    |days| == 7 && forall d | 0 <= d < 7 :: AreRuns(days[d], mask, d)
  }

  // `find`: the first range holding the minute.
  function FindRange(ranges: seq<Range>, minute: int): Option<Range> {
    if ranges == [] then None
    else if ranges[0].startHour * 60 <= minute < ranges[0].endHour * 60 then Some(ranges[0])
    else FindRange(ranges[1..], minute)
  }

  function CurrentOccurrence(now: int, days: seq<seq<Range>>): Option<Occurrence>
    requires |days| == 7
  {
    match FindRange(days[DayIndex(now)], now % DAY_MS / MINUTE_MS)
    case None => None
    case Some(range) => Some(LocalOccurrence(now, 0, range))
  }

  lemma {:induction false} FindRangeFinds(ranges: seq<Range>, minute: int)
    ensures FindRange(ranges, minute).Some? <==> Covered(ranges, minute / 60)
    ensures FindRange(ranges, minute).Some? ==>
              var r := FindRange(ranges, minute).value;
              r in ranges && r.startHour * 60 <= minute < r.endHour * 60
  {
    if ranges != [] {
      FindRangeFinds(ranges[1..], minute);
      if Covered(ranges[1..], minute / 60) {
        var i :| 0 <= i < |ranges[1..]| && ranges[1..][i].startHour <= minute / 60 < ranges[1..][i].endHour;
        assert ranges[i + 1] == ranges[1..][i];
      }
      if i :| 0 <= i < |ranges| && ranges[i].startHour <= minute / 60 < ranges[i].endHour {
        if i > 0 { assert ranges[1..][i - 1] == ranges[i]; }
      }
    }
  }

  // There is a current range exactly when the current hour is set; it is the maximal
  // run of its day around now.
  lemma CurrentIsTheSetHour(now: int, days: seq<seq<Range>>, mask: string)
    requires ValidMask(mask) && DaysOf(days, mask)
    ensures CurrentOccurrence(now, days).Some? <==> SetAt(mask, now / HOUR_MS)
    ensures CurrentOccurrence(now, days).Some? ==>
              var o := CurrentOccurrence(now, days).value;
              && o.startsAt <= now < o.endsAt && o.dayOffset == 0 && o.dayIndex == DayIndex(now)
              && IsRun(o.range, mask, o.dayIndex)
              && o.startsAt == Day(now) * DAY_MS + o.range.startHour * HOUR_MS
              && o.endsAt == Day(now) * DAY_MS + o.range.endHour * HOUR_MS
  {
    hide ValidMask, Separated, SetAt, StartsAt;
    var h, minute := now / HOUR_MS, now % DAY_MS / MINUTE_MS;
    assert h / 24 == Day(now) && h % 24 == minute / 60;
    HourOfDay(mask, h);
    FindRangeFinds(days[DayIndex(now)], minute);
    RangesCover(days[DayIndex(now)], mask, DayIndex(now), h % 24);
  }

  // ---------- nextOccurrence ----------

  // The start of a range after now, of a day and hour.
  predicate FutureStart(mask: string, now: int, h: int)
    requires ValidMask(mask)
  {
    StartsAt(mask, h) && h * HOUR_MS > now
  }

  lemma OccurrenceHour(now: int, dayOffset: nat, range: Range, mask: string, ranges: seq<Range>)
    requires ValidMask(mask) && AreRuns(ranges, mask, (DayIndex(now) + dayOffset) % 7) && range in ranges
    ensures var h := (Day(now) + dayOffset) * 24 + range.startHour;
      && LocalOccurrence(now, dayOffset, range).startsAt == h * HOUR_MS
      && h / 24 == Day(now) + dayOffset
      && StartsAt(mask, h)
  {
    var d := (DayIndex(now) + dayOffset) % 7;
    var h := (Day(now) + dayOffset) * 24 + range.startHour;
    assert IsRun(range, mask, d);
    assert Bit(mask, d, range.startHour);
    DaysWrap(Day(now), dayOffset);
    HourOfDay(mask, h);
  }

  lemma DaysWrap(day: int, dayOffset: nat)
    ensures (day % 7 + dayOffset) % 7 == (day + dayOffset) % 7
  {
  }

  // A start on a day is the start of one of its ranges.
  lemma StartIsRange(now: int, dayOffset: nat, mask: string, ranges: seq<Range>, h: int) returns (i: nat)
    requires ValidMask(mask) && AreRuns(ranges, mask, (DayIndex(now) + dayOffset) % 7)
    requires h / 24 == Day(now) + dayOffset && StartsAt(mask, h)
    ensures i < |ranges| && LocalOccurrence(now, dayOffset, ranges[i]).startsAt == h * HOUR_MS
  {
    DaysWrap(Day(now), dayOffset);
    HourOfDay(mask, h);
    RunStarts(ranges, mask, (DayIndex(now) + dayOffset) % 7, h % 24);
    i :| 0 <= i < |ranges| && ranges[i].startHour == h % 24;
  }

  lemma WeekArithmetic(x: int, weeks: int)
    ensures (x + 168 * weeks) % 168 == x % 168
    ensures (x + 168 * weeks) % 24 == x % 24
    ensures (x + 168 * weeks) / 24 == x / 24 + 7 * weeks
  {
    SameRemainder(x + 168 * weeks, 168, x / 168 + weeks, x % 168);
    SameRemainder(x + 168 * weeks, 24, x / 24 + 7 * weeks, x % 24);
  }

  // An hour that is set gives a start within the seven days after today.
  lemma StartWithinTheWeek(mask: string, now: int, h: int) returns (g: int)
    requires ValidMask(mask) && SetAt(mask, h)
    ensures g / 24 < Day(now) + 8 && FutureStart(mask, now, g)
  {
    hide ValidMask;
    var k := FirstOfRun(mask, h);
    var weeks := (Day(now) - k / 24 + 7) / 7;
    g := k + 168 * weeks;
    WeekArithmetic(k, weeks);
    WeekArithmetic(k - 1, weeks);
    assert g - 1 == k - 1 + 168 * weeks;
  }

  // No start until the end of the seventh day from today: the mask has no hour.
  lemma NoStartsNoHours(mask: string, now: int)
    requires ValidMask(mask)
    requires forall h | h / 24 < Day(now) + 8 :: !FutureStart(mask, now, h)
    ensures forall h :: !SetAt(mask, h)
  {
    hide *;
    forall h ensures !SetAt(mask, h) {
      if SetAt(mask, h) {
        var g := StartWithinTheWeek(mask, now, h);
        assert false;
      }
    }
  }

  lemma PastHasNoFutureStart(mask: string, now: int)
    requires ValidMask(mask)
    ensures forall h | h / 24 < Day(now) :: !FutureStart(mask, now, h)
  {
  }

  lemma {:induction false} FirstOfRun(mask: string, h: int) returns (k: int)
    requires ValidMask(mask) && SetAt(mask, h)
    ensures StartsAt(mask, k)
    decreases h % 24
  {
    if StartsAt(mask, h) { k := h; } else { k := FirstOfRun(mask, h - 1); }
  }

  // With the day's ranges all begun and no start on the days before, none on this one.
  lemma DayWithoutStart(mask: string, now: int, dayOffset: nat, ranges: seq<Range>)
    requires ValidMask(mask) && AreRuns(ranges, mask, (DayIndex(now) + dayOffset) % 7)
    requires forall j | 0 <= j < |ranges| :: LocalOccurrence(now, dayOffset, ranges[j]).startsAt <= now
    ensures forall h | h / 24 == Day(now) + dayOffset :: !FutureStart(mask, now, h)
  {
    hide ValidMask, AreRuns, LocalOccurrence, StartsAt, DayIndex;
    forall h | h / 24 == Day(now) + dayOffset && StartsAt(mask, h) ensures h * HOUR_MS <= now {
      var j := StartIsRange(now, dayOffset, mask, ranges, h);
    }
  }

  predicate Earliest(mask: string, now: int, o: Occurrence)
    requires ValidMask(mask)
  {
    && o.dayIndex < 7 && IsRun(o.range, mask, o.dayIndex)
    && o == LocalOccurrence(now, o.dayOffset, o.range)
    && o.startsAt % HOUR_MS == 0 && FutureStart(mask, now, o.startsAt / HOUR_MS)
  }

  lemma RangeIsEarliest(mask: string, now: int, dayOffset: nat, ranges: seq<Range>, i: nat)
    requires ValidMask(mask) && AreRuns(ranges, mask, (DayIndex(now) + dayOffset) % 7) && i < |ranges|
    requires LocalOccurrence(now, dayOffset, ranges[i]).startsAt > now
    ensures Earliest(mask, now, LocalOccurrence(now, dayOffset, ranges[i]))
  {
    hide ValidMask, StartsAt, DayIndex, Separated, Covered, IsRun, Bit, Earliest, Day;
    OccurrenceHour(now, dayOffset, ranges[i], mask, ranges);
    OnTheHour(mask, now, LocalOccurrence(now, dayOffset, ranges[i]), (Day(now) + dayOffset) * 24 + ranges[i].startHour);
  }

  lemma OnTheHour(mask: string, now: int, o: Occurrence, h: int)
    requires ValidMask(mask) && o == LocalOccurrence(now, o.dayOffset, o.range)
    requires o.dayIndex < 7 && IsRun(o.range, mask, o.dayIndex)
    requires o.startsAt == h * HOUR_MS && StartsAt(mask, h) && o.startsAt > now
    ensures Earliest(mask, now, o)
  {
    hide ValidMask, StartsAt, IsRun, LocalOccurrence;
    assert o.startsAt / HOUR_MS == h;
  }

  // The first of the day's ranges that has not begun, with no start on the days
  // before, starts no later than any other.
  lemma FirstOfDayIsEarliest(mask: string, now: int, dayOffset: nat, ranges: seq<Range>, i: nat)
    requires ValidMask(mask) && AreRuns(ranges, mask, (DayIndex(now) + dayOffset) % 7) && i < |ranges|
    requires forall j | 0 <= j < i :: LocalOccurrence(now, dayOffset, ranges[j]).startsAt <= now
    requires LocalOccurrence(now, dayOffset, ranges[i]).startsAt > now
    requires forall h | h / 24 < Day(now) + dayOffset :: !FutureStart(mask, now, h)
    ensures Earliest(mask, now, LocalOccurrence(now, dayOffset, ranges[i]))
    ensures forall h | FutureStart(mask, now, h) :: LocalOccurrence(now, dayOffset, ranges[i]).startsAt <= h * HOUR_MS
  {
    hide ValidMask, StartsAt, DayIndex, AreRuns, IsRun, Earliest, Day;
    RangeIsEarliest(mask, now, dayOffset, ranges, i);
    var start := LocalOccurrence(now, dayOffset, ranges[i]).startsAt;
    OccurrenceHour(now, dayOffset, ranges[i], mask, ranges);
    SeparatedRunsDiffer(ranges, mask, (DayIndex(now) + dayOffset) % 7);
    forall h | FutureStart(mask, now, h) ensures start <= h * HOUR_MS {
      if h / 24 == Day(now) + dayOffset {
        var j := StartIsRange(now, dayOffset, mask, ranges, h);
        assert i <= j;
      }
    }
  }

  // The earliest range start after now, of all the future; none exactly when the mask
  // has no set hour.
  method NextOccurrence(now: int, days: seq<seq<Range>>, ghost mask: string) returns (next: Option<Occurrence>)
    requires ValidMask(mask) && DaysOf(days, mask)
    ensures next.None? <==> forall h :: !SetAt(mask, h)
    ensures next.Some? ==>
      && Earliest(mask, now, next.value)
      && forall h | FutureStart(mask, now, h) :: next.value.startsAt <= h * HOUR_MS
  {
    hide FutureStart, AreRuns, IsRun, ValidMask, LocalOccurrence;
    PastHasNoFutureStart(mask, now);
    for dayOffset := 0 to 8
      invariant forall h | h / 24 < Day(now) + dayOffset :: !FutureStart(mask, now, h)
    {
      var day := days[(DayIndex(now) + dayOffset) % 7];
      for i := 0 to |day|
        invariant forall j | 0 <= j < i :: LocalOccurrence(now, dayOffset, day[j]).startsAt <= now
      {
        var occurrence := LocalOccurrence(now, dayOffset, day[i]);
        if occurrence.startsAt > now {
          FirstOfDayIsEarliest(mask, now, dayOffset, day, i);
          SomeHourIsSet(mask, now, occurrence);
          return Some(occurrence);
        }
      }
      DayWithoutStart(mask, now, dayOffset, day);
    }
    NoStartsNoHours(mask, now);
    return None;
  }

  lemma SomeHourIsSet(mask: string, now: int, o: Occurrence)
    requires ValidMask(mask) && Earliest(mask, now, o)
    ensures exists h :: SetAt(mask, h)
  {
    assert SetAt(mask, o.startsAt / HOUR_MS);
  }

  // ---------- projectClientEnvironmentSchedule, the ranges and windows ----------

  datatype View = View(
    activity: seq<seq<Range>>, content: seq<seq<Range>>,
    currentActivity: Option<Occurrence>, currentContent: Option<Occurrence>,
    nextActivity: Option<Occurrence>, nextContent: Option<Occurrence>)

  method DayRanges(mask: string) returns (days: seq<seq<Range>>)
    requires ValidMask(mask)
    ensures DaysOf(days, mask)
  {
    days := [];
    for d := 0 to 7
      invariant |days| == d && forall i | 0 <= i < d :: AreRuns(days[i], mask, i)
    {
      var ranges := RangesForDay(mask, d);
      days := days + [ranges];
    }
  }

  // Whatever the stored masks are: content only ever falls inside activity, hour by
  // hour and in the current window, and a window is missing only for want of hours.
  method ProjectSchedule(rawActivity: Option<string>, rawContent: Option<string>, now: int) returns (v: View)
    ensures var a := ActivityMask(rawActivity);
      var c := ContentMask(rawContent, a);
      && DaysOf(v.activity, a) && DaysOf(v.content, c)
      && (forall h :: SetAt(c, h) ==> SetAt(a, h))
      && (v.currentActivity.Some? <==> SetAt(a, now / HOUR_MS))
      && (v.currentContent.Some? <==> SetAt(c, now / HOUR_MS))
      && (v.currentContent.Some? ==> v.currentActivity.Some?)
      && (v.nextActivity.None? <==> forall h :: !SetAt(a, h))
      && (v.nextContent.None? <==> forall h :: !SetAt(c, h))
      && (v.nextContent.Some? ==> v.nextActivity.Some?)
  {
    hide AreRuns, ActivityMask, CurrentOccurrence, Earliest, FutureStart;
    var a := ActivityMask(rawActivity);
    var c := ContentMask(rawContent, a);
    var activity := DayRanges(a);
    var content := DayRanges(c);
    CurrentIsTheSetHour(now, activity, a);
    CurrentIsTheSetHour(now, content, c);
    var nextActivity := NextOccurrence(now, activity, a);
    var nextContent := NextOccurrence(now, content, c);
    v := View(activity, content, CurrentOccurrence(now, activity), CurrentOccurrence(now, content), nextActivity,
              nextContent);
  }
}
