/** The bucketed timeline of the employer analytics page (company.service.ts). */
module Timeline {
  import opened Calendar

  datatype Step = ByDay | ByWeek | ByMonth

  /** WeekDay of ECMA-262, section 21.4.1: 0 is Sunday. */
  function WeekDay(t: int): int { (Day(t) + 4) % 7 }

  /** A bucket boundary: a midnight, a Monday midnight, or the midnight of the first of a month. */
  predicate IsAligned(step: Step, t: int) {
    && TimeWithinDay(t) == 0
    && match step
       case ByDay => true
       case ByWeek => WeekDay(t) == 1
       case ByMonth => DateOf(t) == 1
  }

  /** The boundary that starts the bucket of t; also PostgreSQL's DATE_TRUNC in UTC. */
  function Bucket(step: Step, t: int): int {
    match step
    case ByDay => StartOfDay(t)
    case ByWeek => MakeDate(Day(t) - (Day(t) + 3) % 7, 0)
    case ByMonth => MakeDate(MonthStart(MonthIndex(t)), 0)
  }

  /** The boundary that follows t, for a boundary t. */
  function Following(step: Step, t: int): int {
    match step
    case ByDay => t + MS_PER_DAY
    case ByWeek => t + 7 * MS_PER_DAY
    case ByMonth => t + MonthLength(MonthIndex(t)) * MS_PER_DAY
  }

  lemma FirstOfMonth(m: int)
    ensures MonthIndex(MakeDate(MonthStart(m), 0)) == m
    ensures IsAligned(ByMonth, MakeDate(MonthStart(m), 0))
    ensures Following(ByMonth, MakeDate(MonthStart(m), 0)) == MakeDate(MonthStart(m + 1), 0)
  {
    hide MonthStart, MonthLength;
    MonthStep(m);
    MonthOfUnique(MonthStart(m), m);
  }

  /** Bucket(t) is a boundary, is not after t, and the next boundary is after t. */
  lemma BucketBrackets(step: Step, t: int)
    ensures IsAligned(step, Bucket(step, t))
    ensures Bucket(step, t) <= t < Following(step, Bucket(step, t))
  {
    hide MonthStart, MonthLength;
    if step == ByMonth {
      FirstOfMonth(MonthIndex(t));
    }
  }

  /** No boundary lies strictly between a boundary and the following one. */
  lemma FollowingIsNext(step: Step, a: int, b: int)
    requires IsAligned(step, a) && IsAligned(step, b)
    ensures IsAligned(step, Following(step, a)) && a < Following(step, a)
    ensures a < b ==> Following(step, a) <= b
  {
    hide MonthStart, MonthLength;
    if step == ByMonth {
      var m, n := MonthIndex(a), MonthIndex(b);
      assert a == MakeDate(MonthStart(m), 0) && b == MakeDate(MonthStart(n), 0);
      FirstOfMonth(m);
      FirstOfMonth(m + 1);
      MonthStep(m);
      if a < b {
        if n <= m {
          MonthStartMonotone(n, m);
        } else {
          MonthStartMonotone(m, n);
        }
      }
    }
  }

  /** Bucket(t) is the greatest boundary not after t. */
  lemma BucketIsGreatest(step: Step, t: int, a: int)
    requires IsAligned(step, a)
    ensures a <= t <==> a <= Bucket(step, t)
  {
    BucketBrackets(step, t);
    FollowingIsNext(step, Bucket(step, t), a);
  }

  /** Weeks begin on Mondays: whole weeks away from 5 January 1970, which was one. */
  lemma WeeksBeginOnMondays(t: int)
    ensures (Day(Bucket(ByWeek, t)) - MakeDay(1970, 0, 5)) % 7 == 0
    ensures Day(t) - 6 <= Day(Bucket(ByWeek, t)) <= Day(t)
  {
    hide MonthStart, MonthLength;
    YearStart(1970);
  }

  lemma BucketOfBoundary(step: Step, a: int)
    requires IsAligned(step, a)
    ensures Bucket(step, a) == a
  {
    BucketBrackets(step, a);
    BucketIsGreatest(step, a, a);
  }

  lemma BucketMonotone(step: Step, s: int, t: int)
    requires s <= t
    ensures Bucket(step, s) <= Bucket(step, t)
  {
    BucketBrackets(step, s);
    BucketIsGreatest(step, t, Bucket(step, s));
  }

  lemma MondayOf(d: int)
    requires TimeWithinDay(d) == 0
    ensures Bucket(ByWeek, d) == d + (if WeekDay(d) == 0 then -6 else 1 - WeekDay(d)) * MS_PER_DAY
  {
    var n := Day(d);
    assert (n + 3) % 7 == (if (n + 4) % 7 == 0 then 6 else (n + 4) % 7 - 1);
  }

  lemma SameBucket(step: Step, s: int, t: int)
    requires Day(s) == Day(t)
    ensures Bucket(step, s) == Bucket(step, t)
  {
  }

  method AlignDate(date: int, step: Step) returns (d: int)
    ensures d == Bucket(step, date)
  {
    hide MonthStart, MonthLength;
    d := StartOfDay(date);
    SameBucket(step, d, date);
    match step {
      case ByDay =>
      case ByWeek =>
        MondayOf(d);
        var day := WeekDay(d);
        var diff := DateOf(d) - day + (if day == 0 then -6 else 1);
        SetDateShifts(d, diff - DateOf(d));
        d := SetDate(d, diff);
      case ByMonth =>
        SetDateShifts(d, 1 - DateOf(d));
        d := SetDate(d, 1);
    }
  }

  ghost predicate Increasing(s: seq<int>) {
    forall i, j :: 0 <= i < j < |s| ==> s[i] < s[j]
  }

  /** The boundaries from the bucket of start to the bucket of end, in order and without gap. */
  ghost predicate IsTimeline(buckets: seq<int>, start: int, end: int, step: Step) {
    && Increasing(buckets)
    && forall a :: a in buckets <==> IsAligned(step, a) && Bucket(step, start) <= a <= Bucket(step, end)
  }

  method GenerateTimelineBuckets(start: int, end: int, step: Step) returns (buckets: seq<int>)
    ensures IsTimeline(buckets, start, end, step)
  {
    hide MonthStart, MonthLength;
    buckets := [];
    var current := AlignDate(start, step);
    var alignedEnd := AlignDate(end, step);
    BucketBrackets(step, start);
    ghost var first := current;
    while current <= alignedEnd
      invariant IsAligned(step, current) && first <= current
      invariant Increasing(buckets)
      invariant forall a :: a in buckets <==> IsAligned(step, a) && first <= a < current
      invariant forall a :: a in buckets ==> a <= alignedEnd
      decreases alignedEnd - current
    {
      ghost var was := current;
      ghost var before := buckets;
      assert forall i :: 0 <= i < |before| ==> before[i] in before;
      buckets := buckets + [current];
      match step {
        case ByDay =>
          SetDateShifts(current, 1);
          current := SetDate(current, DateOf(current) + 1);
        case ByWeek =>
          SetDateShifts(current, 7);
          current := SetDate(current, DateOf(current) + 7);
        case ByMonth =>
          SetMonthShifts(current, 1);
          ghost var m := MonthIndex(current);
          assert DaysInMonths(m, 1) == MonthLength(m) + DaysInMonths(m + 1, 0);
          current := SetMonth(current, Month(current) + 1);
      }
      assert current == Following(step, was);
      forall a ensures a in buckets <==> IsAligned(step, a) && first <= a < current {
        if IsAligned(step, a) {
          FollowingIsNext(step, was, a);
        }
        assert a in buckets <==> a in before || a == was;
      }
      FollowingIsNext(step, was, was);
    }
    BucketBrackets(step, end);
  }

  /** Every instant of the window falls into exactly one bucket of the timeline. */
  lemma ExactlyOneBucket(buckets: seq<int>, start: int, end: int, step: Step, t: int)
    requires IsTimeline(buckets, start, end, step)
    requires start <= t <= end
    ensures exists i :: 0 <= i < |buckets| && buckets[i] == Bucket(step, t)
    ensures forall i, j | 0 <= i < |buckets| && 0 <= j < |buckets| && buckets[i] == Bucket(step, t) == buckets[j]
      :: i == j
  {
    BucketBrackets(step, t);
    BucketMonotone(step, start, t);
    BucketMonotone(step, t, end);
    assert Bucket(step, t) in buckets;
  }

  /* ---- trend counts ---- */

  function CountIn(events: seq<int>, step: Step, keys: set<int>): nat {
    if events == [] then 0
    else (if Bucket(step, events[0]) in keys then 1 else 0) + CountIn(events[1..], step, keys)
  }

  datatype Row = Row(bucket: int, ct: nat)

  /** What "SELECT DATE_TRUNC(step, x) AS bucket, COUNT(*) ... GROUP BY 1" returns over the instants x of events. */
  ghost predicate IsGroupBy(rows: seq<Row>, events: seq<int>, step: Step) {
    && (forall i, j :: 0 <= i < j < |rows| ==> rows[i].bucket != rows[j].bucket)
    && (forall i :: 0 <= i < |rows| ==> IsAligned(step, rows[i].bucket))
    && (forall i :: 0 <= i < |rows| ==> rows[i].ct == CountIn(events, step, {rows[i].bucket}))
    && (forall e :: e in events ==> exists i :: 0 <= i < |rows| && rows[i].bucket == Bucket(step, e))
  }

  /** new Map(rows.map(r => [alignDate(r.bucket), r.ct])). */
  function CountMap(rows: seq<Row>, step: Step): map<int, nat> {
    if rows == [] then map[]
    else CountMap(rows[..|rows| - 1], step)[Bucket(step, rows[|rows| - 1].bucket) := rows[|rows| - 1].ct]
  }

  /** timelineBuckets.map(b => m.get(b) ?? 0). */
  function Trend(buckets: seq<int>, m: map<int, nat>): seq<nat> {
    if buckets == [] then [] else [if buckets[0] in m then m[buckets[0]] else 0] + Trend(buckets[1..], m)
  }

  function Sum(s: seq<nat>): nat {
    if s == [] then 0 else s[0] + Sum(s[1..])
  }

  function Elements(s: seq<int>): set<int> { set x | x in s }

  lemma {:induction false} CountMapPresent(rows: seq<Row>, step: Step, i: nat)
    requires i < |rows|
    requires forall i, j :: 0 <= i < j < |rows| ==> rows[i].bucket != rows[j].bucket
    requires forall i :: 0 <= i < |rows| ==> IsAligned(step, rows[i].bucket)
    ensures rows[i].bucket in CountMap(rows, step) && CountMap(rows, step)[rows[i].bucket] == rows[i].ct
  {
    hide Bucket, IsAligned;
    var n := |rows| - 1;
    BucketOfBoundary(step, rows[n].bucket);
    if i < n {
      CountMapPresent(rows[..n], step, i);
    }
  }

  lemma {:induction false} CountMapAbsent(rows: seq<Row>, step: Step, b: int)
    requires forall i :: 0 <= i < |rows| ==> IsAligned(step, rows[i].bucket) && rows[i].bucket != b
    ensures b !in CountMap(rows, step)
  {
    if rows != [] {
      CountMapAbsent(rows[..|rows| - 1], step, b);
      BucketOfBoundary(step, rows[|rows| - 1].bucket);
    }
  }

  lemma {:induction false} CountSplit(events: seq<int>, step: Step, b: int, keys: set<int>)
    requires b !in keys
    ensures CountIn(events, step, {b} + keys) == CountIn(events, step, {b}) + CountIn(events, step, keys)
  {
    if events != [] {
      CountSplit(events[1..], step, b, keys);
    }
  }

  lemma {:induction false} CountAbsent(events: seq<int>, step: Step, keys: set<int>)
    requires forall e :: e in events ==> Bucket(step, e) !in keys
    ensures CountIn(events, step, keys) == 0
  {
    if events != [] {
      CountAbsent(events[1..], step, keys);
    }
  }

  lemma {:induction false} CountAll(events: seq<int>, step: Step, keys: set<int>)
    ensures CountIn(events, step, keys) <= |events|
    ensures CountIn(events, step, keys) == |events| <==> forall e :: e in events ==> Bucket(step, e) in keys
  {
    hide Bucket;
    if events != [] {
      CountAll(events[1..], step, keys);
      assert events == [events[0]] + events[1..];
    }
  }

  /**
   The bars of the chart add up to the number of events whose bucket is shown: nothing is lost, nothing counted twice.
   */
  lemma {:induction false} TrendSum(buckets: seq<int>, rows: seq<Row>, events: seq<int>, step: Step)
    requires IsGroupBy(rows, events, step) && Increasing(buckets)
    ensures Sum(Trend(buckets, CountMap(rows, step))) == CountIn(events, step, Elements(buckets))
  {
    if buckets == [] {
      CountAbsent(events, step, Elements(buckets));
    } else {
      var b, rest := buckets[0], buckets[1..];
      TrendSum(rest, rows, events, step);
      assert Elements(buckets) == {b} + Elements(rest);
      CountSplit(events, step, b, Elements(rest));
      if i :| 0 <= i < |rows| && rows[i].bucket == b {
        CountMapPresent(rows, step, i);
      } else {
        CountMapAbsent(rows, step, b);
        CountAbsent(events, step, {b});
      }
    }
  }

  /** Bar i counts the events of bucket i, no bar is missing and none is moved. */
  lemma TrendAt(buckets: seq<int>, rows: seq<Row>, events: seq<int>, step: Step, i: nat)
    requires IsGroupBy(rows, events, step) && i < |buckets|
    ensures |Trend(buckets, CountMap(rows, step))| == |buckets|
    ensures Trend(buckets, CountMap(rows, step))[i] == CountIn(events, step, {buckets[i]})
  {
    var b := buckets[i];
    TrendLength(buckets, CountMap(rows, step));
    TrendEntry(buckets, CountMap(rows, step), i);
    if j :| 0 <= j < |rows| && rows[j].bucket == b {
      CountMapPresent(rows, step, j);
    } else {
      CountMapAbsent(rows, step, b);
      CountAbsent(events, step, {b});
    }
  }

  lemma {:induction false} TrendEntry(buckets: seq<int>, m: map<int, nat>, i: nat)
    requires i < |buckets|
    ensures i < |Trend(buckets, m)| && Trend(buckets, m)[i] == if buckets[i] in m then m[buckets[i]] else 0
  {
    if i > 0 {
      TrendEntry(buckets[1..], m, i - 1);
    }
  }

  /**
   The queries keep the events from start on and have no upper bound. The chart then shows every event exactly once
   if and only if none lies beyond the last bucket (an interview scheduled for next month is not drawn).
   */
  lemma TrendConservation(buckets: seq<int>, start: int, end: int, step: Step, rows: seq<Row>, events: seq<int>)
    requires IsTimeline(buckets, start, end, step) && IsGroupBy(rows, events, step)
    requires forall e :: e in events ==> start <= e
    ensures |Trend(buckets, CountMap(rows, step))| == |buckets|
    ensures Sum(Trend(buckets, CountMap(rows, step))) == |events|
       <==> forall e :: e in events ==> e < Following(step, Bucket(step, end))
  {
    TrendSum(buckets, rows, events, step);
    forall e | e in events
      ensures Bucket(step, e) in Elements(buckets) <==> e < Following(step, Bucket(step, end))
    {
      BucketBrackets(step, e);
      BucketBrackets(step, end);
      BucketMonotone(step, start, e);
      FollowingIsNext(step, Bucket(step, end), Bucket(step, e));
      BucketIsGreatest(step, e, Following(step, Bucket(step, end)));
    }
    CountAll(events, step, Elements(buckets));
    TrendLength(buckets, CountMap(rows, step));
  }

  lemma {:induction false} TrendLength(buckets: seq<int>, m: map<int, nat>)
    ensures |Trend(buckets, m)| == |buckets|
  {
    if buckets != [] {
      TrendLength(buckets[1..], m);
    }
  }
}
