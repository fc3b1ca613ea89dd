/**
 The daily chart's data transformation (load_accident_counts_by_days):
 February 29 rows are dropped while parsing, the rest are grouped by year
 and, within a year, by day-of-year (both in order of first appearance),
 and each year's day list gets a trailing average over up to seven list
 positions that never reaches into another year's list.
 */
module DailyCounts {
  import opened Seqs
  import opened Grouping

  /** A parsed row: its calendar fields, its day-of-year key (%j) and its count. */
  datatype DayRecord = DayRecord(year: int, month: int, day: int, dayOfYear: int, count: int)

  /** One point of a year's line: the day-of-year and its trailing average. */
  datatype DayPoint = DayPoint(dayOfYear: int, count: real)

  /** The line of one year. */
  datatype YearSeries = YearSeries(year: int, days: seq<DayPoint>)

  function YearOf(r: DayRecord): int { r.year }
  function DayOfYearOf(r: DayRecord): int { r.dayOfYear }
  function CountOf(r: DayRecord): int { r.count }

  /** February 29: calendar month 2 here, which is JavaScript's zero-based month index 1. */
  predicate IsLeapDay(r: DayRecord)
  {
    r.month == 2 && r.day == 29
  }

  /** parseDate returns null exactly for February 29, and the null rows are filtered out. */
  predicate KeptByParser(r: DayRecord)
  {
    !IsLeapDay(r)
  }

  function DropLeapDays(records: seq<DayRecord>): seq<DayRecord>
  {
    Filter(records, KeptByParser)
  }

  /** The year groups of the kept rows (the outer level of d3.groups). */
  function YearGroups(records: seq<DayRecord>): seq<Group<int, DayRecord>>
  {
    GroupBy(DropLeapDays(records), YearOf)
  }

  /** The day groups of one year (the inner level of d3.groups). */
  function DayGroups(year: Group<int, DayRecord>): seq<Group<int, DayRecord>>
  {
    GroupBy(year.members, DayOfYearOf)
  }

  /** d3.sum of one day's counts. */
  function DayTotal(day: Group<int, DayRecord>): int
  {
    SumOf(day.members, CountOf)
  }

  /** First list position of the window ending at `i`: six back, but not before the start. */
  function WindowStart(i: nat): (start: nat)
    ensures start <= i
  {
    if i >= 6 then i - 6 else 0
  }

  /** The average of the day totals at positions WindowStart(i)..i of one year's list. */
  function TrailingWeekMean(days: seq<Group<int, DayRecord>>, i: nat): (mean: real)
    requires i < |days|
    ensures mean * (i + 1 - WindowStart(i)) as real == SumOf(days[WindowStart(i)..i + 1], DayTotal) as real
  {
    SumOf(days[WindowStart(i)..i + 1], DayTotal) as real / (i + 1 - WindowStart(i)) as real
  }

  /** The points of one year's line, one per day group, in list order. */
  function RollingDays(days: seq<Group<int, DayRecord>>): (points: seq<DayPoint>)
    ensures |points| == |days|
    ensures forall i :: 0 <= i < |days| ==> points[i].dayOfYear == days[i].key
    ensures forall i :: 0 <= i < |days| ==> points[i].count == TrailingWeekMean(days, i)
  {
    seq(|days|, i requires 0 <= i < |days| => DayPoint(days[i].key, TrailingWeekMean(days, i)))
  }

  /** The line of one year group: its key and the trailing averages of its day groups. */
  function YearLine(year: Group<int, DayRecord>): YearSeries
  {
    YearSeries(year.key, RollingDays(DayGroups(year)))
  }

  /** The whole daily transformation as a function of the parsed rows. */
  function DailySeries(records: seq<DayRecord>): (series: seq<YearSeries>)
    ensures |series| == |YearGroups(records)|
  {
    Project(YearGroups(records), YearLine)
  }

  /** Negative list positions are skipped: the number of visited positions below `x`. */
  function Clamp(x: int): nat
  {
    if x < 0 then 0 else x
  }

  /**
   The body of the per-day callback: the window of offsets -6..0 around
   `index` is visited, positions outside the list are skipped, and the sum of
   the visited day totals is divided by how many were visited.
   */
  method WindowAverage(days: seq<Group<int, DayRecord>>, index: nat) returns (avg: real)
    requires index < |days|
    ensures avg == TrailingWeekMean(days, index)
  {
    var sum := 0;
    var count := 0;
    var i := -6;
    while i <= 0
      invariant -6 <= i <= 1
      invariant WindowStart(index) <= Clamp(index + i) <= index + 1
      invariant sum == SumOf(days[WindowStart(index)..Clamp(index + i)], DayTotal)
      invariant count == Clamp(index + i) - WindowStart(index)
    {
      var pos := index + i;
      if pos >= 0 && pos < |days| {
        var daySum := SumOf(days[pos].members, CountOf);
        SumOfSliceStep(days, WindowStart(index), pos, DayTotal);
        sum := sum + daySum;
        count := count + 1;
      }
      i := i + 1;
    }
    avg := sum as real / count as real;
  }

  /** The trailing-average pass over one year's day list (days.map with the window loop). */
  method SevenDayAverages(days: seq<Group<int, DayRecord>>) returns (points: seq<DayPoint>)
    ensures points == RollingDays(days)
  {
    points := [];
    var index := 0;
    while index < |days|
      invariant 0 <= index <= |days|
      invariant points == RollingDays(days)[..index]
    {
      var avg := WindowAverage(days, index);
      points := points + [DayPoint(days[index].key, avg)];
      index := index + 1;
    }
  }

  /** The per-year loop: each year's day list gets its own trailing-average pass. */
  method YearLines(years: seq<Group<int, DayRecord>>) returns (series: seq<YearSeries>)
    ensures series == Project(years, YearLine)
  {
    series := [];
    var k := 0;
    while k < |years|
      invariant 0 <= k <= |years|
      invariant |series| == k
      invariant forall j :: 0 <= j < k ==> series[j] == YearLine(years[j])
    {
      var points := SevenDayAverages(DayGroups(years[k]));
      var line := YearSeries(years[k].key, points);
      assert line == YearLine(years[k]);
      series := series + [line];
      k := k + 1;
    }
    assert forall j :: 0 <= j < |years| ==> series[j] == Project(years, YearLine)[j];
  }

  /** The daily transformation: the kept rows grouped by year, one line per year. */
  method DailyRolling(records: seq<DayRecord>) returns (series: seq<YearSeries>)
    ensures series == DailySeries(records)
  {
    series := YearLines(YearGroups(records));
  }

  /**
   Parsing drops every February 29 row and keeps every other row, unchanged,
   as often as it occurs.
   */
  lemma DropLeapDaysSpec(records: seq<DayRecord>)
    ensures forall r :: r in DropLeapDays(records) ==> !IsLeapDay(r)
    ensures forall r :: !IsLeapDay(r) ==> multiset(DropLeapDays(records))[r] == multiset(records)[r]
    ensures forall r :: IsLeapDay(r) ==> multiset(DropLeapDays(records))[r] == 0
  {
    FilterCounts(records, KeptByParser);
  }

  /** No February 29 row reaches any day bucket of any year. */
  lemma NoLeapDayInBuckets(records: seq<DayRecord>)
    ensures forall k, d, r ::
      (0 <= k < |YearGroups(records)| && 0 <= d < |DayGroups(YearGroups(records)[k])|
       && r in DayGroups(YearGroups(records)[k])[d].members) ==> !IsLeapDay(r)
  {
  }

  /**
   A year's line is computed from that year's rows alone: it is the same
   line the rows of that year would give on their own, so no window ever
   borrows a day from another year.
   */
  lemma YearLinesAreIsolated(records: seq<DayRecord>)
    ensures var series := DailySeries(records);
      forall k :: 0 <= k < |series| ==>
        series[k].days == RollingDays(GroupBy(Filter(DropLeapDays(records), KeyIs(YearOf, series[k].year)), DayOfYearOf))
  {
  }

  /**
   The lines are the distinct years of the kept rows, in order of first
   appearance, and each line has one point per distinct day of its year.
   */
  lemma DailySeriesShape(records: seq<DayRecord>)
    ensures var series, years := DailySeries(records), YearGroups(records);
      && (forall k :: 0 <= k < |series| ==> series[k].year == Keys(years)[k])
      && Keys(years) == FirstAppearances(Project(DropLeapDays(records), YearOf))
      && (forall k :: 0 <= k < |series| ==>
            |series[k].days| == |FirstAppearances(Project(years[k].members, DayOfYearOf))|)
  {
    var series, years := DailySeries(records), YearGroups(records);
    forall k | 0 <= k < |series|
      ensures |series[k].days| == |FirstAppearances(Project(years[k].members, DayOfYearOf))|
    {
      assert |Keys(DayGroups(years[k]))| == |DayGroups(years[k])|;
    }
  }

  /** The first point of every year is that day's own total. */
  lemma TrailingWeekMeanFirst(days: seq<Group<int, DayRecord>>)
    requires days != []
    ensures TrailingWeekMean(days, 0) == DayTotal(days[0]) as real
  {
    assert days[0..1] == [days[0]];
    SumOfCons(days[0], [], DayTotal);
  }

  /**
   The divisor is min(i + 1, 7): the number of list positions from the
   year's start, capped at a full week.
   */
  lemma TrailingWeekDivisor(days: seq<Group<int, DayRecord>>, i: nat)
    requires i < |days|
    ensures var n := i + 1 - WindowStart(i);
      && 1 <= n <= 7
      && n == (if i + 1 < 7 then i + 1 else 7)
      && TrailingWeekMean(days, i) * n as real == SumOf(days[WindowStart(i)..i + 1], DayTotal) as real
  {
  }

  /** When every day total in the window lies in [lo, hi], so does the average. */
  lemma TrailingWeekMeanBounds(days: seq<Group<int, DayRecord>>, i: nat, lo: int, hi: int)
    requires i < |days|
    requires forall j :: WindowStart(i) <= j <= i ==> lo <= DayTotal(days[j]) <= hi
    ensures lo as real <= TrailingWeekMean(days, i) <= hi as real
  {
    var window := days[WindowStart(i)..i + 1];
    assert forall k :: 0 <= k < |window| ==> window[k] == days[WindowStart(i) + k];
    SumOfBounds(window, DayTotal, lo, hi);
    MeanBetween(SumOf(window, DayTotal), |window|, lo, hi);
  }

  /**
   Conservation: the day totals of all years add up to the sum of the counts
   of the kept rows.
   */
  lemma DailyTotalsConserved(records: seq<DayRecord>)
    ensures var years := YearGroups(records);
      SumOf(Project(years, (y: Group<int, DayRecord>) => SumOf(DayGroups(y), DayTotal)), (n: int) => n)
      == SumOf(DropLeapDays(records), CountOf)
  {
    var years := YearGroups(records);
    var perYear := Project(years, (y: Group<int, DayRecord>) => SumOf(DayGroups(y), DayTotal));
    forall k | 0 <= k < |years|
      ensures perYear[k] == GroupSum(CountOf)(years[k])
    {
      var days := DayGroups(years[k]);
      SumOfPointwise(days, DayTotal, days, GroupSum(CountOf));
      GroupByConservesSum(years[k].members, DayOfYearOf, CountOf);
    }
    SumOfPointwise(perYear, (n: int) => n, years, GroupSum(CountOf));
    GroupByConservesSum(DropLeapDays(records), YearOf, CountOf);
  }
}
