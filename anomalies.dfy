/** Z-score anomaly detection over a daily series (`detectAnomalies`). The
    route scores every point by `|v - mean| / stdDev` and keeps those above
    the threshold. The model works with the square of the z-score, which is
    exact: `|v - mean| / sqrt(variance) > t` holds, for `t >= 0` and a positive
    variance, exactly when `(v - mean)^2 / variance > t^2`. */
module Anomalies {
  import opened Numeric
  import opened Sequences

  /** `{ value, index, isAnomaly, zScore }`, with `zSquared` the square of
      the z-score; it is `Undefined` where the route divides 0 by a zero
      standard deviation and gets NaN. */
  datatype Scored = Scored(value: real, index: nat, isAnomaly: bool, zSquared: Ratio)

  function Mean(data: seq<real>): real
    requires |data| > 0
  {
    Sum(data) / |data| as real
  }

  function SquaredDeviation(mean: real): real -> real
  {
    (v: real) => (v - mean) * (v - mean)
  }

  /** The population variance, `stdDev` squared. */
  function Variance(data: seq<real>): (var_: real)
    requires |data| > 0
    ensures var_ >= 0.0
  {
    SumByNonnegative(data, SquaredDeviation(Mean(data)));
    SumBy(data, SquaredDeviation(Mean(data))) / |data| as real
  }

  /** The score of point `i`: NaN compares false with the threshold. The
      point is flagged exactly when it lies more than `threshold` standard
      deviations from the mean, and the squared z-score, a number exactly
      when the series has spread, times the variance is the squared
      deviation. */
  function Score(data: seq<real>, threshold: real, i: nat): (s: Scored)
    requires i < |data|
    ensures s.value == data[i] && s.index == i
    ensures s.isAnomaly <==> IsOutlier(data, threshold, i)
    ensures s.zSquared.Defined? <==> Variance(data) > 0.0
    ensures s.zSquared.Defined? ==>
      s.zSquared.value >= 0.0 && s.zSquared.value * Variance(data) == Square(data[i] - Mean(data))
  {
    var dd := SquaredDeviation(Mean(data))(data[i]);
    var z2 := Divide(dd, Variance(data));
    SquareNonnegative(data[i] - Mean(data));
    if Variance(data) > 0.0 then
      QuotientAbove(dd, Variance(data), Square(threshold));
      QuotientAtLeast(dd, Variance(data), 0.0);
      Scored(data[i], i, z2.Defined? && (threshold < 0.0 || z2.value > Square(threshold)), z2)
    else
      Scored(data[i], i, false, z2)
  }

  function Scores(data: seq<real>, threshold: real): seq<Scored>
  {
    seq(|data|, i requires 0 <= i < |data| => Score(data, threshold, i))
  }

  function IsAnomaly(s: Scored): bool { s.isAnomaly }

  function Index(s: Scored): int { s.index }

  /** The reference definition: point `i` lies more than `threshold`
      standard deviations from the mean. */
  ghost predicate IsOutlier(data: seq<real>, threshold: real, i: nat)
    requires i < |data|
  {
    var d := data[i] - Mean(data);
    Variance(data) > 0.0 && (threshold < 0.0 || d * d > Square(threshold) * Variance(data))
  }

  /** `detectAnomalies(data, threshold)`. */
  function DetectAnomalies(data: seq<real>, threshold: real): (r: seq<Scored>)
    ensures |data| < 3 ==> r == []
    ensures forall j :: 0 <= j < |r| ==>
      r[j].isAnomaly && r[j].index < |data| && r[j] == Score(data, threshold, r[j].index)
    ensures |data| >= 3 ==> forall i :: 0 <= i < |data| && Score(data, threshold, i).isAnomaly ==>
      Score(data, threshold, i) in r
  {
    if |data| < 3 then []
    else
      var scores := Scores(data, threshold);
      assert forall i :: 0 <= i < |data| ==> scores[i] == Score(data, threshold, i);
      Filter(scores, IsAnomaly)
  }

  // ---------------------------------------------------------------------------
  // Properties

  /** The anomalies come out in the order of the series. */
  lemma DetectAnomaliesOrdered(data: seq<real>, threshold: real)
    ensures forall j, k :: 0 <= j < k < |DetectAnomalies(data, threshold)| ==>
      DetectAnomalies(data, threshold)[j].index < DetectAnomalies(data, threshold)[k].index
  {
    if |data| >= 3 {
      FilterKeepsOrder(Scores(data, threshold), IsAnomaly, Index);
    }
  }

  /** A series without spread (in particular a constant one) has no anomalies. */
  lemma NoSpreadNoAnomalies(data: seq<real>, threshold: real)
    requires |data| > 0 && Variance(data) == 0.0
    ensures DetectAnomalies(data, threshold) == []
  {
    if |data| >= 3 {
      CountZero(Scores(data, threshold), IsAnomaly);
    }
  }

  /** The summand of the squared z-scores' sum. */
  function ScaledDeviation(mean: real, v: real): real -> real
    requires v != 0.0
  {
    (x: real) => SquaredDeviation(mean)(x) / v
  }

  lemma ZSquaredAsScaled(data: seq<real>, threshold: real)
    requires |data| > 0 && Variance(data) > 0.0
    ensures SumBy(Scores(data, threshold), ZSquared)
         == SumBy(data, ScaledDeviation(Mean(data), Variance(data)))
  {
    var scores := Scores(data, threshold);
    forall i | 0 <= i < |data|
      ensures ZSquared(scores[i]) == ScaledDeviation(Mean(data), Variance(data))(data[i])
    {
      assert scores[i] == Score(data, threshold, i);
    }
    SumByPointwise(scores, data, ZSquared, ScaledDeviation(Mean(data), Variance(data)));
  }

  lemma ScaledSum(s: seq<real>, mean: real, v: real)
    requires v != 0.0
    ensures SumBy(s, ScaledDeviation(mean, v)) == SumBy(s, SquaredDeviation(mean)) / v
  {
    var f, g := ScaledDeviation(mean, v), SquaredDeviation(mean);
    var c := 1.0 / v;
    forall i | 0 <= i < |s|
      ensures f(s[i]) == 0.0 + c * g(s[i])
    {
    }
    SumByAffine(s, f, g, 0.0, c);
  }

  /** The squared z-scores of a series with spread add up to its length. */
  lemma ZSquaredSum(data: seq<real>, threshold: real)
    requires |data| > 0 && Variance(data) > 0.0
    ensures SumBy(Scores(data, threshold), ZSquared) == |data| as real
  {
    var v := Variance(data);
    ZSquaredAsScaled(data, threshold);
    ScaledSum(data, Mean(data), v);
    MeanOverMean(SumBy(data, SquaredDeviation(Mean(data))), |data| as real);
  }

  /** Since the squared z-scores average 1, fewer than `n / t^2` points can
      pass a threshold `t >= 1`: with the route's threshold of 2, at most a
      quarter of the series (strictly less) can be anomalous. */
  lemma AnomaliesAreFew(data: seq<real>, threshold: real)
    requires threshold >= 1.0 && |data| > 0
    ensures |DetectAnomalies(data, threshold)| as real * Square(threshold) < |data| as real
  {
    var r := DetectAnomalies(data, threshold);
    if |r| == 0 {
      assert |r| as real * Square(threshold) == 0.0;
    } else {
      if Variance(data) == 0.0 {
        NoSpreadNoAnomalies(data, threshold);
        assert false;
      }
      AnomalySumAbove(data, threshold);
      AnomalySumAtMost(data, threshold);
    }
  }

  /** The anomalies' squared z-scores exceed `t^2` each ... */
  lemma AnomalySumAbove(data: seq<real>, threshold: real)
    requires threshold >= 0.0 && |DetectAnomalies(data, threshold)| > 0
    ensures |DetectAnomalies(data, threshold)| as real * Square(threshold)
          < SumBy(DetectAnomalies(data, threshold), ZSquared)
  {
    FlaggedAbove(data, threshold);
    SumByAbove(DetectAnomalies(data, threshold), ZSquared, Square(threshold));
  }

  /** ... and add up to at most the sum over the whole series. */
  lemma AnomalySumAtMost(data: seq<real>, threshold: real)
    requires |data| >= 3 && Variance(data) > 0.0
    ensures SumBy(DetectAnomalies(data, threshold), ZSquared) <= |data| as real
  {
    var scores := Scores(data, threshold);
    ScoresNonnegative(data, threshold);
    SumByFilterAtMost(scores, IsAnomaly, ZSquared);
    ZSquaredSum(data, threshold);
  }

  lemma ScoresNonnegative(data: seq<real>, threshold: real)
    requires |data| > 0 && Variance(data) > 0.0
    ensures forall i :: 0 <= i < |data| ==> ZSquared(Scores(data, threshold)[i]) >= 0.0
  {
    forall i | 0 <= i < |data|
      ensures ZSquared(Scores(data, threshold)[i]) >= 0.0
    {
      assert Scores(data, threshold)[i] == Score(data, threshold, i);
    }
  }

  lemma FlaggedAbove(data: seq<real>, threshold: real)
    requires threshold >= 0.0
    ensures forall j :: 0 <= j < |DetectAnomalies(data, threshold)| ==>
      ZSquared(DetectAnomalies(data, threshold)[j]) > Square(threshold)
  {
  }

  /** The squared z-score as a number; 0 stands in for NaN. */
  function ZSquared(s: Scored): real
  {
    if s.zSquared.Defined? then s.zSquared.value else 0.0
  }

  /** Five terms summed. */
  lemma SumByFive<T>(s: seq<T>, f: T -> real)
    requires |s| == 5
    ensures SumBy(s, f) == f(s[0]) + f(s[1]) + f(s[2]) + f(s[3]) + f(s[4])
  {
    assert SumBy(s[..1], f) == f(s[0]) by {
      assert s[..1][..0] == [];
    }
    assert SumBy(s[..2], f) == SumBy(s[..1], f) + f(s[1]) by {
      assert s[..2][..1] == s[..1];
    }
    assert SumBy(s[..3], f) == SumBy(s[..2], f) + f(s[2]) by {
      assert s[..3][..2] == s[..2];
    }
    assert SumBy(s[..4], f) == SumBy(s[..3], f) + f(s[3]) by {
      assert s[..4][..3] == s[..3];
    }
  }

  /** Four equal points and one spike: the spike sits exactly two standard
      deviations from the mean, so with the route's threshold of 2 (a strict
      comparison) nothing is reported. */
  lemma SpikeAtTwoDeviations()
    ensures DetectAnomalies([1.0, 1.0, 1.0, 1.0, 100.0], 2.0) == []
  {
    var data := [1.0, 1.0, 1.0, 1.0, 100.0];
    SumByFive(data, Identity);
    assert Mean(data) == 20.8;
    var sq := SquaredDeviation(20.8);
    SumByFive(data, sq);
    assert sq(1.0) == 392.04 && sq(100.0) == 6272.64;
    assert Variance(data) == 1568.16;
    forall i | 0 <= i < 5
      ensures !Score(data, 2.0, i).isAnomaly
    {
    }
    CountZero(Scores(data, 2.0), IsAnomaly);
  }

  /** Nine zeros and a 10: the 10 is three standard deviations out and is
      the only anomaly, with a squared z-score of 9. */
  lemma SpikeAtThreeDeviations()
    ensures DetectAnomalies([0.0, 0.0, 0.0, 0.0, 0.0, 0.0, 0.0, 0.0, 0.0, 10.0], 2.0)
         == [Scored(10.0, 9, true, Defined(9.0))]
  {
    var data := [0.0, 0.0, 0.0, 0.0, 0.0, 0.0, 0.0, 0.0, 0.0, 10.0];
    assert data == [0.0, 0.0, 0.0, 0.0, 0.0] + [0.0, 0.0, 0.0, 0.0, 10.0];
    SumByAppend([0.0, 0.0, 0.0, 0.0, 0.0], [0.0, 0.0, 0.0, 0.0, 10.0], Identity);
    SumByFive([0.0, 0.0, 0.0, 0.0, 0.0], Identity);
    SumByFive([0.0, 0.0, 0.0, 0.0, 10.0], Identity);
    assert Mean(data) == 1.0;
    var sq := SquaredDeviation(1.0);
    SumByAppend([0.0, 0.0, 0.0, 0.0, 0.0], [0.0, 0.0, 0.0, 0.0, 10.0], sq);
    SumByFive([0.0, 0.0, 0.0, 0.0, 0.0], sq);
    SumByFive([0.0, 0.0, 0.0, 0.0, 10.0], sq);
    assert sq(0.0) == 1.0 && sq(10.0) == 81.0;
    assert Variance(data) == 9.0;
    var scores := Scores(data, 2.0);
    assert scores[9] == Scored(10.0, 9, true, Defined(9.0));
    forall i | 0 <= i < 9
      ensures !scores[i].isAnomaly
    {
      assert scores[i] == Score(data, 2.0, i);
    }
    assert scores == scores[..9] + [scores[9]];
    CountZero(scores[..9], IsAnomaly);
    FilterAppend(scores[..9], [scores[9]], IsAnomaly);
  }
}
