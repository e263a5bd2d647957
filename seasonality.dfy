/** Weekly-pattern detection over a daily series (`calculateSeasonality`):
    the series is cut into whole periods, the periods are averaged position
    by position, and the first three periods are compared against that
    average pattern. */
module Seasonality {
  import opened Numeric

  /** `{ hasSeasonality, strength, pattern }`; a series shorter than two
      periods yields no `strength` field, which is `None` here. */
  datatype SeasonalityResult = SeasonalityResult(hasSeasonality: bool, strength: Option<real>, pattern: seq<real>)

  /** Position `k` of whole period `j` lies inside the series. */
  lemma PeriodIndex(n: nat, period: nat, j: nat, k: nat)
    requires period > 0 && j < n / period && k < period
    ensures j * period + k < (j + 1) * period <= n
  {
    calc {
      (j + 1) * period;
    <=
      { assert j + 1 <= n / period; }
      (n / period) * period;
    <=
      n;
    }
  }

  /** Value `k` of the `j`-th whole period. */
  function At(data: seq<real>, period: nat, j: nat, k: nat): real
    requires period > 0 && j < |data| / period && k < period
  {
    PeriodIndex(|data|, period, j, k);
    data[j * period + k]
  }

  /** What `avgPattern[k]` holds once `count` periods have each added their
      value at position `k` divided by the number of periods `m`. */
  function ColumnShare(data: seq<real>, period: nat, m: nat, k: nat, count: nat): real
    requires period > 0 && m > 0 && k < period && count <= |data| / period
  {
    if count == 0 then 0.0
    else ColumnShare(data, period, m, k, count - 1) + At(data, period, count - 1, k) / m as real
  }

  /** The sum of the values at position `k` of the first `count` periods. */
  function ColumnSum(data: seq<real>, period: nat, k: nat, count: nat): real
    requires period > 0 && k < period && count <= |data| / period
  {
    if count == 0 then 0.0
    else ColumnSum(data, period, k, count - 1) + At(data, period, count - 1, k)
  }

  /** The average pattern: position by position, the mean over all whole
      periods. */
  function AveragePattern(data: seq<real>, period: nat): (avg: seq<real>)
    requires period > 0 && |data| >= period
    ensures |avg| == period
  {
    var m := |data| / period;
    seq(period, k requires 0 <= k < period => ColumnShare(data, period, m, k, m))
  }

  /** A zero average is replaced by 1 before dividing. */
  function Divisor(a: real): (d: real)
    ensures d != 0.0
  {
    if a == 0.0 then 1.0 else a
  }

  /** How far the ratio of a value to its column's average is from 1. */
  function Deviation(data: seq<real>, avg: seq<real>, i: nat): real
    requires |avg| > 0 && i < |data|
  {
    Abs(data[i] / Divisor(avg[i % |avg|]) - 1.0)
  }

  /** The deviations of the first `count` values from the pattern, summed. */
  function DeviationSum(data: seq<real>, avg: seq<real>, count: nat): (s: real)
    requires |avg| > 0 && count <= |data|
    ensures s >= 0.0
  {
    if count == 0 then 0.0 else DeviationSum(data, avg, count - 1) + Deviation(data, avg, count - 1)
  }

  /** How many values are compared with the pattern: three periods at most. */
  function Compared(n: nat, period: nat): nat
  {
    Min(n, 3 * period)
  }

  /** `seasonalityStrength` before rounding. */
  function Strength(data: seq<real>, avg: seq<real>): (st: real)
    requires |avg| > 0
    ensures st <= 1.0
  {
    var count := Compared(|data|, |avg|);
    1.0 - DeviationSum(data, avg, count) / (3 * |avg|) as real
  }

  /** What `calculateSeasonality(data, period)` returns. */
  function SeasonalityOf(data: seq<real>, period: nat): (r: SeasonalityResult)
    requires period > 0
    ensures |data| < 2 * period <==> r.strength.None?
    ensures r.strength.None? ==> r == SeasonalityResult(false, None, [])
    ensures r.strength.Some? ==> |r.pattern| == period && r.strength.value <= 1.0
    ensures r.strength.Some? ==>
      (r.hasSeasonality <==> Strength(data, AveragePattern(data, period)) > 0.7)
  {
    if |data| < 2 * period then SeasonalityResult(false, None, [])
    else
      var avg := AveragePattern(data, period);
      var st := Strength(data, avg);
      Round2Monotone(st, 1.0);
      SeasonalityResult(st > 0.7, Some(Round2(st)), seq(period, k requires 0 <= k < period => Round1(avg[k])))
  }

  /** `calculateSeasonality(data, period)`: collects the whole periods,
      accumulates their average into an array, then sums the deviations of
      the first three periods from it. A period of 0 would make the route
      loop forever, so it is excluded. */
  method CalculateSeasonality(data: seq<real>, period: nat) returns (r: SeasonalityResult)
    requires period > 0
    ensures r == SeasonalityOf(data, period)
  {
    if |data| < period * 2 {
      return SeasonalityResult(false, None, []);
    }
    var patterns := CollectPeriods(data, period);
    var avgPattern := AccumulatePattern(data, period, patterns);
    var deviation := SumDeviations(data, avgPattern);
    var strength := 1.0 - deviation / (period * 3) as real;
    var rounded := seq(period, k requires 0 <= k < period reads avgPattern => Round1(avgPattern[k]));
    r := SeasonalityResult(strength > 0.7, Some(Round2(strength)), rounded);
  }

  /** The loop that collects the values of each whole period, one slice of
      `period` values after another. */
  method CollectPeriods(data: seq<real>, period: nat) returns (patterns: seq<seq<real>>)
    requires period > 0
    ensures |patterns| == |data| / period
    ensures forall j :: 0 <= j < |patterns| ==> |patterns[j]| == period
    ensures forall j, k :: 0 <= j < |patterns| && 0 <= k < period ==> patterns[j][k] == At(data, period, j, k)
  {
    var m := |data| / period;
    patterns := [];
    var i := 0;
    while i < m
      invariant 0 <= i <= m && |patterns| == i
      invariant forall j :: 0 <= j < i ==> |patterns[j]| == period
      invariant forall j, k :: 0 <= j < i && 0 <= k < period ==> patterns[j][k] == At(data, period, j, k)
    {
      PeriodIndex(|data|, period, i, 0);
      var slice := data[i * period..(i + 1) * period];
      assert |slice| == period by {
        assert (i + 1) * period == i * period + period;
      }
      forall k | 0 <= k < period
        ensures slice[k] == At(data, period, i, k)
      {
        PeriodIndex(|data|, period, i, k);
      }
      patterns := patterns + [slice];
      i := i + 1;
    }
  }

  /** Adds each value's share (the value over the number of periods) into
      its column of the pattern array, period by period, in place. */
  method AccumulatePattern(data: seq<real>, period: nat, patterns: seq<seq<real>>) returns (avgPattern: array<real>)
    requires 0 < period <= |data| && |patterns| == |data| / period
    requires forall j :: 0 <= j < |patterns| ==> |patterns[j]| == period
    requires forall j, k :: 0 <= j < |patterns| && 0 <= k < period ==> patterns[j][k] == At(data, period, j, k)
    ensures fresh(avgPattern)
    ensures avgPattern[..] == AveragePattern(data, period)
  {
    var m := |patterns|;
    avgPattern := new real[period](_ => 0.0);
    var j := 0;
    while j < m
      invariant 0 <= j <= m && avgPattern.Length == period
      invariant forall k :: 0 <= k < period ==> avgPattern[k] == ColumnShare(data, period, m, k, j)
    {
      var pattern := patterns[j];
      var k := 0;
      while k < period
        invariant 0 <= k <= period
        invariant forall q :: 0 <= q < k ==> avgPattern[q] == ColumnShare(data, period, m, q, j + 1)
        invariant forall q :: k <= q < period ==> avgPattern[q] == ColumnShare(data, period, m, q, j)
      {
        avgPattern[k] := avgPattern[k] + pattern[k] / m as real;
        k := k + 1;
      }
      j := j + 1;
    }
  }

  /** The strength loop: the running sum of the deviations of the first
      `min(n, 3 * period)` values. */
  method SumDeviations(data: seq<real>, avgPattern: array<real>) returns (s: real)
    requires avgPattern.Length > 0
    ensures s == DeviationSum(data, avgPattern[..], Compared(|data|, avgPattern.Length))
  {
    var period := avgPattern.Length;
    s := 0.0;
    var limit := Min(|data|, period * 3);
    var t := 0;
    while t < limit
      invariant 0 <= t <= limit
      invariant s == DeviationSum(data, avgPattern[..], t)
    {
      var patternIdx := t % period;
      var correlation := data[t] / Divisor(avgPattern[patternIdx]);
      s := s + Abs(correlation - 1.0);
      t := t + 1;
    }
  }

  // ---------------------------------------------------------------------------
  // Properties

  /** After all `m` periods the accumulated share is the column mean. */
  lemma {:induction false} ColumnShareIsMean(data: seq<real>, period: nat, m: nat, k: nat, count: nat)
    requires period > 0 && m > 0 && k < period && count <= |data| / period
    ensures ColumnShare(data, period, m, k, count) == ColumnSum(data, period, k, count) / m as real
  {
    if count > 0 {
      ColumnShareIsMean(data, period, m, k, count - 1);
      QuotientOfSum(ColumnSum(data, period, k, count - 1), At(data, period, count - 1, k), m as real);
    }
  }

  /** Each entry of the reported pattern is the mean of its position over
      the whole periods, to one decimal. */
  lemma PatternIsColumnMean(data: seq<real>, period: nat, k: nat)
    requires period > 0 && |data| >= 2 * period && k < period
    ensures SeasonalityOf(data, period).pattern[k]
         == Round1(ColumnSum(data, period, k, |data| / period) / (|data| / period) as real)
  {
    ColumnShareIsMean(data, period, |data| / period, k, |data| / period);
  }

  /** Seasonality is reported only when the first periods stay on average
      within 10% of the pattern: the deviations sum to less than
      `0.3 * 3 * period`. */
  lemma SeasonalMeansCloseToPattern(data: seq<real>, period: nat)
    requires period > 0
    requires SeasonalityOf(data, period).hasSeasonality
    ensures DeviationSum(data, AveragePattern(data, period), Compared(|data|, period))
          < 0.3 * (3 * period) as real
  {
    var avg := AveragePattern(data, period);
    var s := DeviationSum(data, avg, Compared(|data|, period));
    QuotientBelow(s, (3 * period) as real, 0.3);
  }

  /** In a series that repeats one period of non-zero values every position
      matches its average exactly: strength 1 and seasonality reported, with
      the period itself as the pattern. */
  lemma PeriodicSeriesIsSeasonal(data: seq<real>, period: nat)
    requires period > 0 && |data| >= 2 * period
    requires forall i :: 0 <= i < |data| ==> data[i] == data[i % period]
    requires forall k :: 0 <= k < period ==> data[k] != 0.0
    ensures SeasonalityOf(data, period)
         == SeasonalityResult(true, Some(1.0), seq(period, k requires 0 <= k < period => Round1(data[k])))
  {
    var avg := AveragePattern(data, period);
    forall k | 0 <= k < period
      ensures avg[k] == data[k]
    {
      PeriodicColumnMean(data, period, k);
    }
    PeriodicDeviations(data, avg, Compared(|data|, period));
    assert Round2(1.0) == 1.0;
  }

  /** The pattern of a periodic series is the period itself. */
  lemma PeriodicColumnMean(data: seq<real>, period: nat, k: nat)
    requires 0 < period <= |data| && k < period
    requires forall i :: 0 <= i < |data| ==> data[i] == data[i % period]
    ensures AveragePattern(data, period)[k] == data[k]
  {
    assert |data| / period > 0;
    ColumnShareIsMean(data, period, |data| / period, k, |data| / period);
    PeriodicColumn(data, period, k, |data| / period);
    QuotientOfMultiple(data[k], (|data| / period) as real);
  }

  lemma {:induction false} PeriodicColumn(data: seq<real>, period: nat, k: nat, count: nat)
    requires 0 < period <= |data| && k < period && count <= |data| / period
    requires forall i :: 0 <= i < |data| ==> data[i] == data[i % period]
    ensures ColumnSum(data, period, k, count) == data[k] * count as real
  {
    if count > 0 {
      PeriodicColumn(data, period, k, count - 1);
      PeriodIndex(|data|, period, count - 1, k);
      DivModUnique((count - 1) * period + k, period, count - 1, k);
      assert At(data, period, count - 1, k) == data[k];
    }
  }

  lemma {:induction false} PeriodicDeviations(data: seq<real>, avg: seq<real>, count: nat)
    requires 0 < |avg| <= |data| && count <= |data|
    requires forall i :: 0 <= i < |data| ==> data[i] == data[i % |avg|]
    requires forall k :: 0 <= k < |avg| ==> avg[k] == data[k] && data[k] != 0.0
    ensures DeviationSum(data, avg, count) == 0.0
  {
    if count > 0 {
      PeriodicDeviations(data, avg, count - 1);
      var i := count - 1;
      var k := i % |avg|;
      assert data[i] / Divisor(avg[k]) == 1.0;
    }
  }

  /** A series with no activity at all is not seasonal: every value deviates
      by 1 from the (zero, divided as 1) pattern, leaving a strength of
      `1 - min(n, 3 period) / (3 period)`, at most 1/3. */
  lemma SilentSeriesIsNotSeasonal(data: seq<real>, period: nat)
    requires period > 0 && |data| >= 2 * period
    requires forall i :: 0 <= i < |data| ==> data[i] == 0.0
    ensures !SeasonalityOf(data, period).hasSeasonality
    ensures SeasonalityOf(data, period).strength
         == Some(Round2(1.0 - Compared(|data|, period) as real / (3 * period) as real))
  {
    var avg := AveragePattern(data, period);
    var count := Compared(|data|, period);
    SilentDeviations(data, avg, count);
    var w := (3 * period) as real;
    QuotientAtLeast(count as real, w, 2.0 / 3.0);
  }

  lemma {:induction false} SilentDeviations(data: seq<real>, avg: seq<real>, count: nat)
    requires |avg| > 0 && count <= |data|
    requires forall i :: 0 <= i < |data| ==> data[i] == 0.0
    ensures DeviationSum(data, avg, count) == count as real
  {
    if count > 0 {
      SilentDeviations(data, avg, count - 1);
    }
  }
}
