/**
 * The statistics of a session log (src/com/android/gamebar/PerAppLogReader.kt, the
 * `calculate*` helpers): frame-rate extremes, mean, population variance, percentile lows and
 * smoothness, and the minimum, maximum and mean of each CPU and GPU channel. `Double` values are
 * read as exact reals.
 */
module LogStatistics {
  import opened Sorting

  /** `Iterable<Double>.sum()`. */
  function Sum(xs: seq<real>): real {
    if xs == [] then 0.0 else xs[0] + Sum(xs[1..])
  }

  /** `average()` of a non-empty list. */
  function Mean(xs: seq<real>): real
    requires |xs| > 0
  {
    Sum(xs) / |xs| as real
  }

  /** The natural order of `Double`, which `sorted()` uses. */
  function RealLe(a: real, b: real): bool { a <= b }

  lemma RealLeIsPreorder()
    ensures TotalPreorder(RealLe)
  {
  }

  /** `sorted()`: the values in ascending order. */
  function Ascending(xs: seq<real>): (r: seq<real>)
    ensures |r| == |xs| && multiset(r) == multiset(xs)
    ensures forall i, j :: 0 <= i < j < |r| ==> r[i] <= r[j]
  {
    RealLeIsPreorder();
    SortBySorted(xs, RealLe);
    SortBy(xs, RealLe)
  }

  lemma {:induction false} SumConcat(a: seq<real>, b: seq<real>)
    ensures Sum(a + b) == Sum(a) + Sum(b)
  {
    if a == [] {
      assert a + b == b;
    } else {
      assert (a + b)[1..] == a[1..] + b;
      SumConcat(a[1..], b);
    }
  }

  /** Inserting a value adds it to the sum. */
  lemma {:induction false} SumInsert(x: real, s: seq<real>)
    ensures Sum(Insert(x, s, RealLe)) == x + Sum(s)
  {
    if s != [] {
      if RealLe(x, s[0]) {
        assert ([x] + s)[1..] == s;
      } else {
        var tail := Insert(x, s[1..], RealLe);
        SumInsert(x, s[1..]);
        assert ([s[0]] + tail)[1..] == tail;
      }
    }
  }

  /** Sorting keeps the sum. */
  lemma {:induction false} SumAscending(xs: seq<real>)
    ensures Sum(Ascending(xs)) == Sum(xs)
  {
    if xs != [] {
      SumAscending(xs[1..]);
      SumInsert(xs[0], SortBy(xs[1..], RealLe));
    }
  }

  /** Every value at most `hi` makes the sum at most `n·hi`, and at least `lo` at least `n·lo`. */
  lemma {:induction false} SumBounds(xs: seq<real>, lo: real, hi: real)
    requires forall i :: 0 <= i < |xs| ==> lo <= xs[i] <= hi
    ensures |xs| as real * lo <= Sum(xs) <= |xs| as real * hi
  {
    if xs != [] {
      SumBounds(xs[1..], lo, hi);
    }
  }

  /** The mean lies between any lower and upper bound of the values. */
  lemma MeanBounds(xs: seq<real>, lo: real, hi: real)
    requires |xs| > 0
    requires forall i :: 0 <= i < |xs| ==> lo <= xs[i] <= hi
    ensures lo <= Mean(xs) <= hi
  {
    SumBounds(xs, lo, hi);
    var n := |xs| as real;
    assert Sum(xs) / n >= (n * lo) / n;
    assert Sum(xs) / n <= (n * hi) / n;
  }

  /** On ascending values, the mean of a prefix never exceeds the mean of a longer prefix. */
  lemma {:induction false} PrefixMeanMonotone(s: seq<real>, i: nat, j: nat)
    requires forall a, b :: 0 <= a < b < |s| ==> s[a] <= s[b]
    requires 1 <= i <= j <= |s|
    ensures Mean(s[..i]) <= Mean(s[..j])
    decreases j - i
  {
    if i < j {
      var x := s[i];
      var p := s[..i];
      assert s[..i + 1] == p + [x];
      SumConcat(p, [x]);
      assert Sum([x]) == x;
      SumBounds(p, s[0], x);
      var m := i as real;
      var si := Sum(p);
      // The new element is at least the old mean, so adding it does not lower the mean.
      assert si <= m * x;
      assert si * (m + 1.0) <= (si + x) * m;
      DivideBothSides(si, m, si + x, m + 1.0);
      PrefixMeanMonotone(s, i + 1, j);
    }
  }

  lemma DivideBothSides(a: real, b: real, c: real, d: real)
    requires b > 0.0 && d > 0.0
    requires a * d <= c * b
    ensures a / b <= c / d
  {
    var x := a / b;
    var y := c / d;
    assert a == x * b && c == y * d;
    assert x * b * d <= y * d * b;
  }

  /** `count { it >= 45.0 }`. */
  function SmoothCount(xs: seq<real>): (k: nat)
    ensures k <= |xs|
  {
    if xs == [] then 0 else (if xs[0] >= 45.0 then 1 else 0) + SmoothCount(xs[1..])
  }

  /** Every value is counted smooth exactly when every value is at least 45 FPS. */
  lemma {:induction false} AllSmooth(xs: seq<real>)
    ensures SmoothCount(xs) == |xs| <==> forall i :: 0 <= i < |xs| ==> xs[i] >= 45.0
  {
    if xs != [] {
      AllSmooth(xs[1..]);
      assert forall i :: 1 <= i < |xs| ==> xs[i] == xs[1..][i - 1];
    }
  }

  /** The sum of squared deviations from `avg`. */
  function SquaredDeviations(xs: seq<real>, avg: real): real {
    if xs == [] then 0.0 else (xs[0] - avg) * (xs[0] - avg) + SquaredDeviations(xs[1..], avg)
  }

  lemma {:induction false} SquaredDeviationsNonNegative(xs: seq<real>, avg: real)
    ensures SquaredDeviations(xs, avg) >= 0.0
  {
    if xs != [] {
      var dev := xs[0] - avg;
      if dev < 0.0 {
        assert dev * dev == (-dev) * (-dev);
      }
      SquaredDeviationsNonNegative(xs[1..], avg);
    }
  }

  /**
   * The number of values a percentile low averages: `(n * p).toInt()`, at least 1. For the
   * positive `p` used here, truncation and floor agree.
   */
  function PercentileCount(n: nat, p: real): (c: int)
    ensures c >= 1
  {
    var k := (n as real * p).Floor;
    if k < 1 then 1 else k
  }

  /**
   * `calculatePercentileLow`: the mean of the first `PercentileCount` ascending values (`take`
   * stops at the end of the list), or 0 for no values.
   */
  function PercentileLow(sorted: seq<real>, p: real): real {
    if sorted == [] then 0.0
    else
      var count := PercentileCount(|sorted|, p);
      var worst := if count <= |sorted| then sorted[..count] else sorted;
      Mean(worst)
  }

  /** `FpsStatistics`, without the standard deviation. */
  datatype FpsStatistics = FpsStatistics(
    maxFps: real, minFps: real, avgFps: real, variance: real,
    fps1PercentLow: real, fps0_1PercentLow: real, smoothnessPercentage: real)

  /** The population variance about `avg`, defined as 0 for fewer than two values. */
  function Variance(xs: seq<real>, avg: real): real {
    if |xs| > 1 then SquaredDeviations(xs, avg) / |xs| as real else 0.0
  }

  /** `calculateFpsStatistics`. */
  function FpsStats(values: seq<real>): (r: FpsStatistics)
    ensures values == [] ==> r == FpsStatistics(0.0, 0.0, 0.0, 0.0, 0.0, 0.0, 0.0)
  {
    if values == [] then FpsStatistics(0.0, 0.0, 0.0, 0.0, 0.0, 0.0, 0.0)
    else
      var sorted := Ascending(values);
      var avg := Mean(values);
      FpsStatistics(
        sorted[|sorted| - 1],
        sorted[0],
        avg,
        Variance(values, avg),
        PercentileLow(sorted, 0.01),
        PercentileLow(sorted, 0.001),
        SmoothCount(values) as real / |values| as real * 100.0)
  }

  /** The smallest and largest reported rates are attained and bound every sample. */
  lemma FpsExtremes(values: seq<real>)
    requires |values| > 0
    ensures FpsStats(values).minFps in values && FpsStats(values).maxFps in values
    ensures forall i :: 0 <= i < |values| ==>
      FpsStats(values).minFps <= values[i] <= FpsStats(values).maxFps
  {
    StatsFields(values);
    AscendingEnds(values);
  }

  /** The ends of the ascending order are samples, and every sample lies between them. */
  lemma AscendingEnds(values: seq<real>)
    requires |values| > 0
    ensures var sorted := Ascending(values);
      && sorted[0] in values && sorted[|sorted| - 1] in values
      && forall i :: 0 <= i < |values| ==> sorted[0] <= values[i] <= sorted[|sorted| - 1]
  {
    var sorted := Ascending(values);
    assert sorted[0] in multiset(values);
    assert sorted[|sorted| - 1] in multiset(values);
    forall i | 0 <= i < |values|
      ensures sorted[0] <= values[i] <= sorted[|sorted| - 1]
    {
      assert values[i] in multiset(sorted);
      var j :| 0 <= j < |sorted| && sorted[j] == values[i];
    }
  }

  /** minFps ≤ 0.1 % low ≤ 1 % low ≤ avgFps ≤ maxFps. */
  lemma FpsOrdering(values: seq<real>)
    requires |values| > 0
    ensures var st := FpsStats(values);
      st.minFps <= st.fps0_1PercentLow <= st.fps1PercentLow <= st.avgFps <= st.maxFps
  {
    var sorted := Ascending(values);
    var n := |sorted|;
    var w1 := LowWidth(n, 0.01);
    var w01 := LowWidth(n, 0.001);
    assert w01 <= w1 by {
      assert (n as real * 0.001).Floor <= (n as real * 0.01).Floor;
    }
    StatsFields(values);
    LowIsPrefixMean(sorted, 0.001);
    LowIsPrefixMean(sorted, 0.01);
    AverageIsFullMean(values);
    FirstBelowPrefixMean(sorted, w01);
    PrefixMeanMonotone(sorted, w01, w1);
    PrefixMeanMonotone(sorted, w1, n);
    FullMeanBelowLast(sorted);
  }

  /** How many of `n` ascending values a percentile low averages. */
  function LowWidth(n: nat, p: real): (w: nat)
    requires n > 0
    ensures 1 <= w <= n
  {
    var c := PercentileCount(n, p);
    if c <= n then c else n
  }

  /** The mean of the whole list is the mean of it sorted. */
  lemma AverageIsFullMean(values: seq<real>)
    requires |values| > 0
    ensures Mean(values) == Mean(Ascending(values)[..|values|])
  {
    var sorted := Ascending(values);
    assert sorted[..|values|] == sorted;
    SumAscending(values);
  }

  /** The smallest of ascending values is at most the mean of any non-empty prefix. */
  lemma FirstBelowPrefixMean(sorted: seq<real>, w: nat)
    requires forall a, b :: 0 <= a < b < |sorted| ==> sorted[a] <= sorted[b]
    requires 1 <= w <= |sorted|
    ensures sorted[0] <= Mean(sorted[..w])
  {
    var worst := sorted[..w];
    forall i | 0 <= i < |worst| ensures sorted[0] <= worst[i] <= sorted[w - 1] {
      assert worst[i] == sorted[i];
    }
    MeanBounds(worst, sorted[0], sorted[w - 1]);
  }

  /** The mean of ascending values is at most the last one. */
  lemma FullMeanBelowLast(sorted: seq<real>)
    requires forall a, b :: 0 <= a < b < |sorted| ==> sorted[a] <= sorted[b]
    requires |sorted| > 0
    ensures Mean(sorted[..|sorted|]) <= sorted[|sorted| - 1]
  {
    var n := |sorted|;
    assert sorted[..n] == sorted;
    forall i | 0 <= i < n ensures sorted[0] <= sorted[i] <= sorted[n - 1] {
    }
    MeanBounds(sorted, sorted[0], sorted[n - 1]);
  }

  /** The fields of the statistics of a non-empty list, in terms of its ascending order. */
  lemma StatsFields(values: seq<real>)
    requires |values| > 0
    ensures var st := FpsStats(values);
      var sorted := Ascending(values);
      && st.minFps == sorted[0] && st.maxFps == sorted[|sorted| - 1]
      && st.avgFps == Mean(values)
      && st.fps1PercentLow == PercentileLow(sorted, 0.01)
      && st.fps0_1PercentLow == PercentileLow(sorted, 0.001)
  {
  }

  /** A percentile low is the mean of the smallest `count` values, or of all of them. */
  lemma LowIsPrefixMean(sorted: seq<real>, p: real)
    requires sorted != []
    ensures PercentileLow(sorted, p) == Mean(sorted[..LowWidth(|sorted|, p)])
  {
    assert sorted[..|sorted|] == sorted;
  }

  /** Under 100 samples both percentile lows are the minimum. */
  lemma FewSamplesLowsAreMinimum(values: seq<real>)
    requires 0 < |values| < 100
    ensures FpsStats(values).fps1PercentLow == FpsStats(values).minFps
    ensures FpsStats(values).fps0_1PercentLow == FpsStats(values).minFps
  {
    var sorted := Ascending(values);
    var n := |sorted|;
    assert (n as real * 0.01).Floor == 0;
    assert (n as real * 0.001).Floor == 0;
    StatsFields(values);
    LowOfOne(sorted, 0.01);
    LowOfOne(sorted, 0.001);
  }

  /** A percentile count of one takes the smallest value alone. */
  lemma LowOfOne(sorted: seq<real>, p: real)
    requires sorted != [] && (|sorted| as real * p).Floor < 1
    ensures PercentileLow(sorted, p) == sorted[0]
  {
    assert sorted[..1] == [sorted[0]];
    assert Sum([sorted[0]]) == sorted[0] + Sum([]);
  }

  /** The variance is never negative, and a single sample has none. */
  lemma VarianceNonNegative(values: seq<real>)
    requires |values| > 0
    ensures FpsStats(values).variance >= 0.0
    ensures |values| == 1 ==> FpsStats(values).variance == 0.0
  {
    SquaredDeviationsNonNegative(values, Mean(values));
  }

  /** Smoothness is the share of samples at 45 FPS or more, in percent, so within 0..100. */
  lemma SmoothnessInRange(values: seq<real>)
    requires |values| > 0
    ensures 0.0 <= FpsStats(values).smoothnessPercentage <= 100.0
    ensures FpsStats(values).smoothnessPercentage == 100.0 <==> SmoothCount(values) == |values|
    ensures FpsStats(values).smoothnessPercentage == 100.0 <==> forall i :: 0 <= i < |values| ==> values[i] >= 45.0
  {
    RatioBounds(SmoothCount(values) as real, |values| as real);
    AllSmooth(values);
  }

  lemma RatioBounds(k: real, n: real)
    requires 0.0 <= k <= n && n > 0.0
    ensures 0.0 <= k / n * 100.0 <= 100.0
    ensures k / n * 100.0 == 100.0 <==> k == n
  {
    var q := k / n;
    assert q * n == k;
    if k == n {
      SelfRatio(n);
    }
  }

  lemma SelfRatio(n: real)
    requires n > 0.0
    ensures n / n == 1.0
  {
  }

  /** Maximum, minimum and mean of one channel. */
  datatype Summary = Summary(max: real, min: real, avg: real)

  /** `maxOrNull`/`minOrNull`/`average`, each 0 for an empty channel. */
  function Summarize(xs: seq<real>): (r: Summary)
    ensures xs == [] ==> r == Summary(0.0, 0.0, 0.0)
    ensures xs != [] ==> r.max in xs && r.min in xs
    ensures forall i :: 0 <= i < |xs| ==> r.min <= xs[i] <= r.max
  {
    if xs == [] then Summary(0.0, 0.0, 0.0)
    else
      var rest := Summarize(xs[1..]);
      if xs[1..] == [] then Summary(xs[0], xs[0], xs[0])
      else
        Summary(if xs[0] >= rest.max then xs[0] else rest.max,
                if xs[0] <= rest.min then xs[0] else rest.min,
                Mean(xs))
  }

  /** A channel's mean lies between its minimum and maximum. */
  lemma SummaryOrdered(xs: seq<real>)
    ensures Summarize(xs).min <= Summarize(xs).avg <= Summarize(xs).max
  {
    if xs != [] {
      var r := Summarize(xs);
      if xs[1..] == [] {
        assert Summarize(xs).avg == xs[0];
      } else {
        MeanBounds(xs, r.min, r.max);
      }
    }
  }

  /** A channel's reported mean is `average()` of its samples. */
  lemma SummaryMean(xs: seq<real>)
    requires xs != []
    ensures Summarize(xs).avg == Mean(xs)
  {
    if xs[1..] == [] {
      assert Sum(xs) == xs[0] + Sum(xs[1..]);
    }
  }

  /** `CpuStatistics`. */
  datatype CpuStatistics = CpuStatistics(usage: Summary, temp: Summary)

  /** `GpuStatistics`. */
  datatype GpuStatistics = GpuStatistics(usage: Summary, clock: Summary, temp: Summary)

  function CpuStats(usage: seq<real>, temp: seq<real>): CpuStatistics {
    CpuStatistics(Summarize(usage), Summarize(temp))
  }

  function GpuStats(usage: seq<real>, clock: seq<real>, temp: seq<real>): GpuStatistics {
    GpuStatistics(Summarize(usage), Summarize(clock), Summarize(temp))
  }
}
