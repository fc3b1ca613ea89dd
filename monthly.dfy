/**
 The monthly chart's data transformation (load_accident_counts_by_months):
 the records are rolled up by year-month with their counts summed, the
 buckets are sorted by period, and a trailing 12-month average is computed
 over the sorted buckets.
 */
module MonthlyCounts {
  import opened Wrappers
  import opened Seqs
  import opened Grouping

  /** A parsed row: its year-month as a month index (12 * year + month - 1) and its count. */
  datatype MonthRecord = MonthRecord(period: int, count: int)

  /** One aggregated month. */
  datatype Bucket = Bucket(period: int, count: int)

  /** A point of the rolling-average line; `None` is the source's `null` (no line drawn). */
  datatype RollingPoint = RollingPoint(period: int, rollingAvg: Option<real>)

  function PeriodOf(r: MonthRecord): int { r.period }
  function CountOf(r: MonthRecord): int { r.count }
  function BucketPeriod(b: Bucket): int { b.period }
  function BucketCount(b: Bucket): int { b.count }

  function Periods(bs: seq<Bucket>): seq<int>
  {
    Project(bs, BucketPeriod)
  }

  /** Each bucket's period is at least the one before it. */
  ghost predicate SortedByPeriod(bs: seq<Bucket>)
  {
    forall i :: 0 < i < |bs| ==> bs[i - 1].period <= bs[i].period
  }

  /** Each bucket's period is above the one before it. */
  ghost predicate StrictlyIncreasing(bs: seq<Bucket>)
  {
    forall i :: 0 < i < |bs| ==> bs[i - 1].period < bs[i].period
  }

  /** The records of one month, the bucket's contributors. */
  function RecordsOf(records: seq<MonthRecord>, period: int): seq<MonthRecord>
  {
    Filter(records, KeyIs(PeriodOf, period))
  }

  /**
   d3.rollups(records, sum of counts, year-month): one bucket per month in
   order of first appearance, each holding the sum of its records' counts.
   */
  function Rollup(records: seq<MonthRecord>): (bs: seq<Bucket>)
    ensures Periods(bs) == FirstAppearances(Project(records, PeriodOf))
    ensures forall i :: 0 <= i < |bs| ==> bs[i].count == SumOf(RecordsOf(records, bs[i].period), CountOf)
    ensures SumOf(bs, BucketCount) == SumOf(records, CountOf)
  {
    var gs := GroupBy(records, PeriodOf);
    var bs := seq(|gs|, i requires 0 <= i < |gs| => Bucket(gs[i].key, SumOf(gs[i].members, CountOf)));
    assert Periods(bs) == Keys(gs);
    SumOfPointwise(bs, BucketCount, gs, GroupSum(CountOf));
    GroupByConservesSum(records, PeriodOf, CountOf);
    bs
  }

  /**
   Inserts one bucket in front of the first bucket with a greater period,
   so that it follows every bucket of its own period.
   */
  function InsertByPeriod(b: Bucket, s: seq<Bucket>): (r: seq<Bucket>)
    ensures |r| == |s| + 1
    ensures forall x :: x in r <==> x == b || x in s
    ensures SumOf(r, BucketCount) == SumOf(s, BucketCount) + b.count
  {
    if s == [] then
      assert [b][..0] == [];
      [b]
    else if b.period < s[0].period then
      SumOfCons(b, s, BucketCount);
      [b] + s
    else
      var rest := InsertByPeriod(b, s[1..]);
      assert s == [s[0]] + s[1..];
      SumOfCons(s[0], rest, BucketCount);
      SumOfCons(s[0], s[1..], BucketCount);
      [s[0]] + rest
  }

  /** Insertion into a sorted sequence keeps it sorted. */
  lemma {:induction false} InsertKeepsSorted(b: Bucket, s: seq<Bucket>)
    requires SortedByPeriod(s)
    ensures SortedByPeriod(InsertByPeriod(b, s))
  {
    if s != [] && b.period >= s[0].period {
      var rest := InsertByPeriod(b, s[1..]);
      assert InsertByPeriod(b, s) == [s[0]] + rest;
      InsertKeepsSorted(b, s[1..]);
      assert rest[0] == b || rest[0] == s[1];
    }
  }

  /** Insertion of a new period into a strictly increasing sequence keeps it strictly increasing. */
  lemma {:induction false} InsertKeepsStrict(b: Bucket, s: seq<Bucket>)
    requires StrictlyIncreasing(s)
    requires forall k :: 0 <= k < |s| ==> s[k].period != b.period
    ensures StrictlyIncreasing(InsertByPeriod(b, s))
  {
    if s != [] && b.period >= s[0].period {
      var rest := InsertByPeriod(b, s[1..]);
      assert InsertByPeriod(b, s) == [s[0]] + rest;
      InsertKeepsStrict(b, s[1..]);
      assert rest[0] == b || rest[0] == s[1];
    }
  }

  /** Insertion adds the bucket and keeps every other one, each as often as before. */
  lemma {:induction false} InsertPermutes(b: Bucket, s: seq<Bucket>)
    ensures multiset(InsertByPeriod(b, s)) == multiset(s) + multiset{b}
  {
    if s != [] && b.period >= s[0].period {
      assert s == [s[0]] + s[1..];
      InsertPermutes(b, s[1..]);
    }
  }

  /** In a sorted sequence, no bucket has a period below the first one's. */
  lemma {:induction false} NoPeriodBelowFirst(s: seq<Bucket>, p: int)
    requires SortedByPeriod(s)
    requires s != [] && p < s[0].period
    ensures Filter(s, KeyIs(BucketPeriod, p)) == []
  {
    assert s == [s[0]] + s[1..];
    FilterConcat([s[0]], s[1..], KeyIs(BucketPeriod, p));
    FilterSingleton(s[0], KeyIs(BucketPeriod, p));
    if |s| > 1 {
      NoPeriodBelowFirst(s[1..], p);
    }
  }

  /** Dropping the first bucket of a sorted sequence leaves it sorted. */
  lemma SortedTail(s: seq<Bucket>)
    requires SortedByPeriod(s) && s != []
    ensures SortedByPeriod(s[1..])
  {
    assert forall i :: 0 <= i < |s| - 1 ==> s[1..][i] == s[i + 1];
  }

  /** Inserting in front: the bucket precedes only buckets of greater periods. */
  lemma InsertInFront(b: Bucket, s: seq<Bucket>, p: int)
    requires SortedByPeriod(s)
    requires s != [] && b.period < s[0].period
    ensures Filter([b] + s, KeyIs(BucketPeriod, p))
      == Filter(s, KeyIs(BucketPeriod, p)) + (if b.period == p then [b] else [])
  {
    var same := KeyIs(BucketPeriod, p);
    assert same(b) == (BucketPeriod(b) == p);
    FilterConcat([b], s, same);
    FilterSingleton(b, same);
    if b.period == p {
      NoPeriodBelowFirst(s, p);
      assert Filter([b] + s, same) == [b] + [];
    } else {
      assert Filter([b] + s, same) == [] + Filter(s, same);
    }
  }

  /** Inserting past the first bucket: the first bucket stays in front of the rest. */
  lemma InsertPastFirst(b: Bucket, s: seq<Bucket>, rest: seq<Bucket>, p: int)
    requires s != []
    requires Filter(rest, KeyIs(BucketPeriod, p))
      == Filter(s[1..], KeyIs(BucketPeriod, p)) + (if b.period == p then [b] else [])
    ensures Filter([s[0]] + rest, KeyIs(BucketPeriod, p))
      == Filter(s, KeyIs(BucketPeriod, p)) + (if b.period == p then [b] else [])
  {
    assert s == [s[0]] + s[1..];
    FilterConsSuffix(s[0], rest, s[1..], if b.period == p then [b] else [], KeyIs(BucketPeriod, p));
  }

  /**
   Insertion into a sorted sequence places the new bucket after every
   bucket of its own period and leaves the buckets of each period in order.
   */
  lemma {:induction false} InsertAfterSamePeriod(b: Bucket, s: seq<Bucket>, p: int)
    requires SortedByPeriod(s)
    ensures Filter(InsertByPeriod(b, s), KeyIs(BucketPeriod, p))
      == Filter(s, KeyIs(BucketPeriod, p)) + (if b.period == p then [b] else [])
  {
    if s == [] {
      FilterSingleton(b, KeyIs(BucketPeriod, p));
    } else if b.period < s[0].period {
      InsertInFront(b, s, p);
    } else {
      var rest := InsertByPeriod(b, s[1..]);
      assert InsertByPeriod(b, s) == [s[0]] + rest;
      SortedTail(s);
      InsertAfterSamePeriod(b, s[1..], p);
      InsertPastFirst(b, s, rest, p);
    }
  }

  /** Increasing from each bucket to the next means increasing between any two buckets. */
  lemma {:induction false} StrictlyIncreasingPairs(bs: seq<Bucket>)
    requires StrictlyIncreasing(bs)
    ensures forall i, j :: 0 <= i < j < |bs| ==> bs[i].period < bs[j].period
  {
    if bs != [] {
      var init := bs[..|bs| - 1];
      assert forall i :: 0 <= i < |init| ==> init[i] == bs[i];
      StrictlyIncreasingPairs(init);
      forall i, j | 0 <= i < j < |bs|
        ensures bs[i].period < bs[j].period
      {
        if j == |bs| - 1 && i < j - 1 {
          assert init[i].period < init[j - 1].period;
        }
      }
    }
  }

  /** Sequences with the same elements have the same periods. */
  lemma SamePeriods(a: seq<Bucket>, b: seq<Bucket>)
    requires forall x :: x in a <==> x in b
    ensures forall p :: p in Periods(a) <==> p in Periods(b)
  {
    forall p | p in Periods(a)
      ensures p in Periods(b)
    {
      var i :| 0 <= i < |a| && Periods(a)[i] == p;
      assert a[i] in a;
      var j :| 0 <= j < |b| && b[j] == a[i];
      assert Periods(b)[j] == p;
    }
    forall p | p in Periods(b)
      ensures p in Periods(a)
    {
      var j :| 0 <= j < |b| && Periods(b)[j] == p;
      assert b[j] in b;
      var i :| 0 <= i < |a| && a[i] == b[j];
      assert Periods(a)[i] == p;
    }
  }

  /** Array.prototype.sort by period, as an insertion sort: the same buckets, reordered. */
  function SortByPeriod(s: seq<Bucket>): (r: seq<Bucket>)
    ensures |r| == |s|
    ensures forall x :: x in r <==> x in s
    ensures SumOf(r, BucketCount) == SumOf(s, BucketCount)
  {
    if s == [] then []
    else
      var init, last := s[..|s| - 1], s[|s| - 1];
      assert s == init + [last];
      InsertByPeriod(last, SortByPeriod(init))
  }

  /** The sort's result is sorted by period. */
  lemma {:induction false} SortByPeriodSorts(s: seq<Bucket>)
    ensures SortedByPeriod(SortByPeriod(s))
  {
    if s != [] {
      SortByPeriodSorts(s[..|s| - 1]);
      InsertKeepsSorted(s[|s| - 1], SortByPeriod(s[..|s| - 1]));
    }
  }

  /** The sort's result holds the same buckets as its input, each as often. */
  lemma {:induction false} SortByPeriodPermutes(s: seq<Bucket>)
    ensures multiset(SortByPeriod(s)) == multiset(s)
  {
    if s != [] {
      var init, last := s[..|s| - 1], s[|s| - 1];
      assert s == init + [last];
      SortByPeriodPermutes(init);
      InsertPermutes(last, SortByPeriod(init));
    }
  }

  /** The sort is stable: the buckets of any one period keep their input order. */
  lemma {:induction false} SortByPeriodStable(s: seq<Bucket>, p: int)
    ensures Filter(SortByPeriod(s), KeyIs(BucketPeriod, p)) == Filter(s, KeyIs(BucketPeriod, p))
  {
    if s != [] {
      var init, last := s[..|s| - 1], s[|s| - 1];
      assert s == init + [last];
      SortByPeriodSorts(init);
      InsertAfterSamePeriod(last, SortByPeriod(init), p);
      SortByPeriodStable(init, p);
      FilterSnoc(init, last, KeyIs(BucketPeriod, p));
    }
  }

  /** With no period repeated, the sort's result is strictly increasing. */
  lemma {:induction false} SortByPeriodStrict(s: seq<Bucket>)
    requires Distinct(Periods(s))
    ensures StrictlyIncreasing(SortByPeriod(s))
  {
    if s != [] {
      var init, last := s[..|s| - 1], s[|s| - 1];
      var sorted := SortByPeriod(init);
      assert forall i :: 0 <= i < |init| ==> Periods(init)[i] == Periods(s)[i] != last.period;
      SortByPeriodStrict(init);
      forall k | 0 <= k < |sorted|
        ensures sorted[k].period != last.period
      {
        assert sorted[k] in sorted;
        var i :| 0 <= i < |init| && init[i] == sorted[k];
        assert Periods(init)[i] == sorted[k].period;
      }
      InsertKeepsStrict(last, sorted);
    }
  }

  /** The monthly buckets the chart draws: the rollup sorted by period. */
  function MonthlyBuckets(records: seq<MonthRecord>): seq<Bucket>
  {
    SortByPeriod(Rollup(records))
  }

  /** The monthly buckets are strictly increasing by period: sorted, one bucket per month. */
  lemma MonthlyBucketsIncreasing(records: seq<MonthRecord>)
    ensures var r := MonthlyBuckets(records);
      forall i, j :: 0 <= i < j < |r| ==> r[i].period < r[j].period
  {
    SortByPeriodStrict(Rollup(records));
    StrictlyIncreasingPairs(MonthlyBuckets(records));
  }

  /** There is a bucket for a month exactly when some record falls in that month. */
  lemma MonthlyBucketsCoverMonths(records: seq<MonthRecord>)
    ensures forall p :: p in Periods(MonthlyBuckets(records)) <==> p in Project(records, PeriodOf)
  {
    SamePeriods(MonthlyBuckets(records), Rollup(records));
  }

  /**
   Each bucket holds the sum of the counts of the records of its month, and
   the buckets together hold the sum of all record counts.
   */
  lemma MonthlyBucketsSumCounts(records: seq<MonthRecord>)
    ensures var r := MonthlyBuckets(records);
      && (forall i :: 0 <= i < |r| ==> r[i].count == SumOf(RecordsOf(records, r[i].period), CountOf))
      && SumOf(r, BucketCount) == SumOf(records, CountOf)
  {
    var rolled := Rollup(records);
    var r := MonthlyBuckets(records);
    forall i | 0 <= i < |r|
      ensures r[i].count == SumOf(RecordsOf(records, r[i].period), CountOf)
    {
      assert r[i] in r;
      var k :| 0 <= k < |rolled| && rolled[k] == r[i];
    }
  }

  /** The mean of the 12 buckets ending at `i`, or `None` below index 12. */
  function TrailingYearMean(buckets: seq<Bucket>, i: nat): (mean: Option<real>)
    requires i < |buckets|
    ensures mean.Some? <==> i >= 12
    ensures mean.Some? ==> mean.value * 12.0 == SumOf(buckets[i - 11..i + 1], BucketCount) as real
  {
    if i < 12 then None else Some(SumOf(buckets[i - 11..i + 1], BucketCount) as real / 12.0)
  }

  /**
   The rolling-average pass over the sorted buckets: a point per bucket with
   the same period, `None` for the first twelve, otherwise the sum of the
   twelve counts ending at that bucket divided by 12.
   */
  method TrailingYearAverages(buckets: seq<Bucket>) returns (rolling: seq<RollingPoint>)
    ensures |rolling| == |buckets|
    ensures forall i :: 0 <= i < |buckets| ==>
      rolling[i] == RollingPoint(buckets[i].period, TrailingYearMean(buckets, i))
  {
    rolling := [];
    var i := 0;
    while i < |buckets|
      invariant 0 <= i <= |buckets|
      invariant |rolling| == i
      invariant forall k :: 0 <= k < i ==>
        rolling[k] == RollingPoint(buckets[k].period, TrailingYearMean(buckets, k))
    {
      if i < 12 {
        rolling := rolling + [RollingPoint(buckets[i].period, None)];
      } else {
        var sum := 0;
        var j := i - 11;
        while j <= i
          invariant i - 11 <= j <= i + 1
          invariant sum == SumOf(buckets[i - 11..j], BucketCount)
        {
          SumOfSliceStep(buckets, i - 11, j, BucketCount);
          sum := sum + buckets[j].count;
          j := j + 1;
        }
        rolling := rolling + [RollingPoint(buckets[i].period, Some(sum as real / 12.0))];
      }
      i := i + 1;
    }
  }

  /** The whole monthly transformation: sorted buckets and their rolling averages. */
  method MonthlySeries(records: seq<MonthRecord>) returns (counts: seq<Bucket>, rolling: seq<RollingPoint>)
    ensures counts == MonthlyBuckets(records)
    ensures |rolling| == |counts|
    ensures forall i :: 0 <= i < |counts| ==>
      rolling[i] == RollingPoint(counts[i].period, TrailingYearMean(counts, i))
  {
    counts := MonthlyBuckets(records);
    rolling := TrailingYearAverages(counts);
  }

  /** When every count in the window lies in [lo, hi], so does the trailing mean. */
  lemma TrailingYearMeanBounds(buckets: seq<Bucket>, i: nat, lo: int, hi: int)
    requires 12 <= i < |buckets|
    requires forall j :: i - 11 <= j <= i ==> lo <= buckets[j].count <= hi
    ensures lo as real <= TrailingYearMean(buckets, i).value <= hi as real
  {
    var window := buckets[i - 11..i + 1];
    assert forall k :: 0 <= k < |window| ==> window[k] == buckets[i - 11 + k];
    SumOfBounds(window, BucketCount, lo, hi);
  }

  /**
   Consecutive averages differ by the bucket entering the window minus the
   bucket leaving it, over 12: the sliding-window recurrence.
   */
  lemma TrailingYearMeanSlides(buckets: seq<Bucket>, i: nat)
    requires 12 <= i && i + 1 < |buckets|
    ensures TrailingYearMean(buckets, i + 1).value - TrailingYearMean(buckets, i).value
      == (buckets[i + 1].count - buckets[i - 11].count) as real / 12.0
  {
    SumOfSliceStep(buckets, i - 11, i + 1, BucketCount);
    var shared := buckets[i - 10..i + 1];
    assert buckets[i - 11..i + 1] == [buckets[i - 11]] + shared;
    SumOfCons(buckets[i - 11], shared, BucketCount);
    assert buckets[i - 11..i + 2][1..] == buckets[i - 10..i + 2];
    SumOfSliceStep(buckets, i - 10, i + 1, BucketCount);
  }
}
