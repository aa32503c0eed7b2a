/** MeasurementsStats: the summary the probes build from the list of successful
    durations (milliseconds, as exact reals) and the number of failed attempts. */
module Stats {
  import opened Outcomes

  /** min(s); Python raises ValueError on an empty list, so callers check first. */
  function Min(s: seq<real>): (m: real)
    requires s != []
    ensures m in s
    ensures forall x :: x in s ==> m <= x
  {
    if |s| == 1 then s[0]
    else
      assert s == [s[0]] + s[1..];
      var rest := Min(s[1..]);
      if s[0] <= rest then s[0] else rest
  }

  /** max(s). */
  function Max(s: seq<real>): (m: real)
    requires s != []
    ensures m in s
    ensures forall x :: x in s ==> x <= m
  {
    if |s| == 1 then s[0]
    else
      assert s == [s[0]] + s[1..];
      var rest := Max(s[1..]);
      if s[0] >= rest then s[0] else rest
  }

  function Sum(s: seq<real>): real {
    if s == [] then 0.0 else s[0] + Sum(s[1..])
  }

  /** statistics.mean(s): the arithmetic mean. */
  function Mean(s: seq<real>): real
    requires s != []
  {
    Sum(s) / (|s| as real)
  }

  predicate Sorted(s: seq<real>) {
    forall i, j :: 0 <= i < j < |s| ==> s[i] <= s[j]
  }

  /** Putting a value no greater than the first of a sorted list in front keeps it sorted. */
  lemma ConsSorted(x: real, t: seq<real>)
    requires Sorted(t)
    requires t != [] ==> x <= t[0]
    ensures Sorted([x] + t)
  {
    var r := [x] + t;
    forall i, j | 0 <= i < j < |r| ensures r[i] <= r[j] {
      if i == 0 && j > 1 {
        assert r[j] == t[j - 1] && t[0] <= t[j - 1];
      }
    }
  }

  function Insert(x: real, s: seq<real>): (r: seq<real>)
    requires Sorted(s)
    ensures Sorted(r)
    ensures multiset(r) == multiset(s) + multiset{x}
    ensures |r| == |s| + 1
    ensures r[0] == x || (s != [] && r[0] == s[0])
  {
    if s == [] then [x]
    else if x <= s[0] then
      ConsSorted(x, s);
      [x] + s
    else
      var rest := Insert(x, s[1..]);
      assert s == [s[0]] + s[1..];
      assert |s| > 1 ==> s[0] <= s[1];
      ConsSorted(s[0], rest);
      [s[0]] + rest
  }

  /** sorted(s): an ascending permutation of s. */
  function Sort(s: seq<real>): (r: seq<real>)
    ensures Sorted(r)
    ensures multiset(r) == multiset(s)
    ensures |r| == |s|
  {
    if s == [] then []
    else
      assert s == [s[0]] + s[1..];
      Insert(s[0], Sort(s[1..]))
  }

  /** statistics.median(s): the middle of the sorted list, or the mean of the two
      middle elements when the length is even. */
  function Median(s: seq<real>): real
    requires s != []
  {
    var t := Sort(s);
    var n := |t|;
    if n % 2 == 1 then t[n / 2] else (t[n / 2 - 1] + t[n / 2]) / 2.0
  }

  /** The sum of the squared deviations of s from m. */
  function SquaredDeviations(s: seq<real>, m: real): (r: real)
    ensures r >= 0.0
  {
    if s == [] then 0.0
    else
      var d := s[0] - m;
      assert d * d >= 0.0 by {
        if d < 0.0 { assert d * d == (-d) * (-d); }
      }
      d * d + SquaredDeviations(s[1..], m)
  }

  /** statistics.variance(s): the sample variance (n - 1 denominator), the square
      of statistics.stdev(s). */
  function SampleVariance(s: seq<real>): real
    requires |s| > 1
  {
    SquaredDeviations(s, Mean(s)) / ((|s| - 1) as real)
  }

  /** The object MeasurementsStats(measurements, failed_attempts) builds. The
      standard deviation is kept as its square, stdevSquared. */
  datatype MeasurementsStats = MeasurementsStats(
    latencies: seq<real>,
    min: real,
    max: real,
    mean: real,
    median: real,
    stdevSquared: real,
    failedAttempts: int,
    attempts: int)

  /** The constructor MeasurementsStats.__init__: min() of an empty list raises
      ValueError before any field is set. */
  function Compute(measurements: seq<real>, failedAttempts: int := 0): (r: Result<MeasurementsStats, Exception>)
    ensures r.Failure? <==> measurements == []
    ensures r.Failure? ==> r.error == EmptyData
    ensures r.Success? ==>
      && r.value.latencies == measurements
      && r.value.min in measurements && r.value.max in measurements
      && (forall x :: x in measurements ==> r.value.min <= x <= r.value.max)
      && r.value.min <= r.value.median <= r.value.max
      && r.value.min <= r.value.mean <= r.value.max
      && r.value.stdevSquared >= 0.0
      && (|measurements| <= 1 ==> r.value.stdevSquared == 0.0)
      && r.value.mean == Mean(measurements)
      && r.value.median == Median(measurements)
      && (|measurements| > 1 ==> r.value.stdevSquared == SampleVariance(measurements))
      && r.value.failedAttempts == failedAttempts
      && r.value.attempts == |measurements| + failedAttempts
  {
    if measurements == [] then Failure(EmptyData)
    else
      MeanBetweenMinAndMax(measurements);
      MedianBetweenMinAndMax(measurements);
      var spread := if |measurements| > 1 then SampleVariance(measurements) else 0.0;
      assert spread >= 0.0 by {
        if |measurements| > 1 {
          NonNegativeQuotient(SquaredDeviations(measurements, Mean(measurements)), (|measurements| - 1) as real);
        }
      }
      Success(MeasurementsStats(
        measurements,
        Min(measurements),
        Max(measurements),
        Mean(measurements),
        Median(measurements),
        spread,
        failedAttempts,
        |measurements| + failedAttempts))
  }

  lemma NonNegativeQuotient(a: real, b: real)
    requires a >= 0.0 && b > 0.0
    ensures a / b >= 0.0
  {
  }

  /** The sum of values that all lie in [lo, hi] lies in [n * lo, n * hi]. */
  lemma {:induction false} SumBetween(s: seq<real>, lo: real, hi: real)
    requires forall i :: 0 <= i < |s| ==> lo <= s[i] <= hi
    ensures (|s| as real) * lo <= Sum(s) <= (|s| as real) * hi
  {
    if s != [] {
      var tail := s[1..];
      assert forall i :: 0 <= i < |tail| ==> tail[i] == s[i + 1];
      SumBetween(tail, lo, hi);
      AddBounds(s[0], Sum(tail), (|tail| as real), lo, hi);
    }
  }

  lemma AddBounds(x: real, total: real, n: real, lo: real, hi: real)
    requires lo <= x <= hi
    requires n * lo <= total <= n * hi
    ensures (n + 1.0) * lo <= x + total <= (n + 1.0) * hi
  {
  }

  lemma MeanBetweenMinAndMax(s: seq<real>)
    requires s != []
    ensures Min(s) <= Mean(s) <= Max(s)
  {
    var lo, hi := Min(s), Max(s);
    forall i | 0 <= i < |s| ensures lo <= s[i] <= hi {
      assert s[i] in s;
    }
    SumBetween(s, lo, hi);
    DivideBounds(Sum(s), |s| as real, lo, hi);
  }

  lemma DivideBounds(total: real, n: real, lo: real, hi: real)
    requires n > 0.0
    requires n * lo <= total <= n * hi
    ensures lo <= total / n <= hi
  {
    assert total / n - lo == (total - n * lo) / n;
    assert hi - total / n == (n * hi - total) / n;
  }

  lemma MedianBetweenMinAndMax(s: seq<real>)
    requires s != []
    ensures Min(s) <= Median(s) <= Max(s)
  {
    var t := Sort(s);
    forall i | 0 <= i < |t| ensures Min(s) <= t[i] <= Max(s) {
      assert t[i] in multiset(t);
      assert t[i] in s;
    }
  }

  /** An ascending permutation is unique. */
  lemma {:induction false} SortedPermutationUnique(a: seq<real>, b: seq<real>)
    requires Sorted(a) && Sorted(b)
    requires multiset(a) == multiset(b)
    ensures a == b
    decreases |a|
  {
    assert |a| == |multiset(a)| == |b|;
    if a != [] {
      SameHead(a, b);
      SortedPermutationUnique(a[1..], b[1..]);
      assert a == [a[0]] + a[1..];
      assert b == [b[0]] + b[1..];
    }
  }

  /** Two ascending permutations of each other start alike, and so do their tails. */
  lemma SameHead(a: seq<real>, b: seq<real>)
    requires a != [] && Sorted(a) && Sorted(b)
    requires multiset(a) == multiset(b)
    ensures b != [] && a[0] == b[0]
    ensures Sorted(a[1..]) && Sorted(b[1..])
    ensures multiset(a[1..]) == multiset(b[1..])
  {
    assert |a| == |multiset(a)| == |b|;
    SortedHeadLeast(a, b[0]);
    SortedHeadLeast(b, a[0]);
    TailMultiset(a);
    TailMultiset(b);
    TailSorted(a);
    TailSorted(b);
  }

  /** The first of a sorted list is its least element. */
  lemma SortedHeadLeast(s: seq<real>, x: real)
    requires Sorted(s) && x in multiset(s)
    ensures s[0] <= x
  {
    assert x in s;
  }

  lemma TailSorted(s: seq<real>)
    requires s != [] && Sorted(s)
    ensures Sorted(s[1..])
  {
    var t := s[1..];
    forall i, j | 0 <= i < j < |t| ensures t[i] <= t[j] {
      assert t[i] == s[i + 1] && t[j] == s[j + 1];
    }
  }

  lemma TailMultiset(s: seq<real>)
    requires s != []
    ensures multiset(s[1..]) == multiset(s) - multiset{s[0]}
  {
    assert s == [s[0]] + s[1..];
  }

  /** The median is the middle of ANY ascending arrangement of the data (or the
      mean of its two middle elements for an even length), not just of Sort's. */
  lemma MedianIsMiddle(s: seq<real>, t: seq<real>)
    requires s != []
    requires Sorted(t) && multiset(t) == multiset(s)
    ensures |t| == |s|
    ensures |s| % 2 == 1 ==> Median(s) == t[|s| / 2]
    ensures |s| % 2 == 0 ==> Median(s) == (t[|s| / 2 - 1] + t[|s| / 2]) / 2.0
  {
    SortedPermutationUnique(t, Sort(s));
  }

  /** A single sample: every statistic is that sample and the deviation is 0. */
  lemma SingleSample(x: real, failedAttempts: int)
    ensures Compute([x], failedAttempts)
      == Success(MeasurementsStats([x], x, x, x, x, 0.0, failedAttempts, 1 + failedAttempts))
  {
    assert Sort([x]) == [x];
  }

  /** The count of attempts is the successes plus the failures, and the failures
      default to 0. */
  lemma AttemptsCount(measurements: seq<real>)
    requires measurements != []
    ensures Compute(measurements).Success?
    ensures Compute(measurements).value.failedAttempts == 0
    ensures Compute(measurements).value.attempts == |measurements|
  {
  }
}
