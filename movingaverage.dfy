/** Trailing moving averages over a daily series (`calculateMovingAverage`). */
module MovingAverages {
  import opened Numeric

  /** The average of the window starting at `i`, to one decimal. A window of
      0 divides 0 by 0, which is NaN in the route and `Undefined` here. */
  function WindowAverage(data: seq<real>, window: nat, i: nat): (a: Ratio)
    requires i + window <= |data|
    ensures a.Defined? <==> window > 0
  {
    var avg := Divide(Sum(data[i..i + window]), window as real);
    if avg.Defined? then Defined(Round1(avg.value)) else Undefined
  }

  /** What `calculateMovingAverage(data, window)` returns: nothing when the
      series is shorter than the window, otherwise one average per window
      position. */
  function MovingAverageOf(data: seq<real>, window: nat): (r: seq<Ratio>)
    ensures |data| < window ==> r == []
    ensures |data| >= window ==> |r| == |data| - window + 1
    ensures forall i :: 0 <= i < |r| ==> r[i] == WindowAverage(data, window, i)
  {
    if |data| < window then []
    else seq(|data| - window + 1, i requires 0 <= i < |data| - window + 1 => WindowAverage(data, window, i))
  }

  /** `calculateMovingAverage(data, window)`: slides the window one day at a
      time and pushes each rounded average. */
  method MovingAverage(data: seq<real>, window: nat) returns (r: seq<Ratio>)
    ensures r == MovingAverageOf(data, window)
  {
    r := [];
    if |data| < window {
      return;
    }
    var i := 0;
    while i <= |data| - window
      invariant 0 <= i <= |data| - window + 1
      invariant |r| == i
      invariant forall k :: 0 <= k < i ==> r[k] == WindowAverage(data, window, k)
    {
      r := r + [WindowAverage(data, window, i)];
      i := i + 1;
    }
  }

  // ---------------------------------------------------------------------------
  // Properties

  /** Sliding the window one day drops the oldest value and adds the next. */
  lemma WindowSlides(data: seq<real>, window: nat, i: nat)
    requires window > 0 && i + window < |data|
    ensures Sum(data[i + 1..i + 1 + window]) == Sum(data[i..i + window]) - data[i] + data[i + window]
  {
    assert data[i..i + window] == [data[i]] + data[i + 1..i + window];
    SumAppend([data[i]], data[i + 1..i + window]);
    assert data[i + 1..i + 1 + window] == data[i + 1..i + window] + [data[i + window]];
    SumAppend(data[i + 1..i + window], [data[i + window]]);
    assert Sum([data[i]]) == data[i];
    assert Sum([data[i + window]]) == data[i + window];
  }

  /** Every average lies between the rounded lowest and highest values. */
  lemma MovingAverageBounded(data: seq<real>, window: nat, lo: real, hi: real)
    requires forall k :: 0 <= k < |data| ==> lo <= data[k] <= hi
    ensures forall i :: 0 <= i < |MovingAverageOf(data, window)| ==>
      MovingAverageOf(data, window)[i].Defined? ==>
      Round1(lo) <= MovingAverageOf(data, window)[i].value <= Round1(hi)
  {
    var r := MovingAverageOf(data, window);
    forall i | 0 <= i < |r| && r[i].Defined?
      ensures Round1(lo) <= r[i].value <= Round1(hi)
    {
      var w := window as real;
      var s := Sum(data[i..i + window]);
      SumBounds(data[i..i + window], lo, hi);
      assert w * lo <= s <= w * hi;
      var avg := s / w;
      assert lo <= avg by {
        QuotientOfMultiple(lo, w);
      }
      assert avg <= hi by {
        QuotientOfMultiple(hi, w);
      }
      Round1Monotone(lo, avg);
      Round1Monotone(avg, hi);
    }
  }

  /** A constant series averages to that constant (rounded) everywhere. */
  lemma MovingAverageOfConstant(data: seq<real>, window: nat, c: real)
    requires window > 0
    requires forall k :: 0 <= k < |data| ==> data[k] == c
    ensures forall i :: 0 <= i < |MovingAverageOf(data, window)| ==>
      MovingAverageOf(data, window)[i] == Defined(Round1(c))
  {
    MovingAverageBounded(data, window, c, c);
  }

  /** The window the route uses: at most a week, at most half the series. */
  function RouteWindow(days: nat): (w: nat)
    ensures w <= 7 && w <= days / 2
    ensures w == 7 || w == days / 2
  {
    Min(7, days / 2)
  }

  /** With that window a series of at least two days has well-defined
      averages, and more of them than half the series. */
  lemma RouteWindowAverages(data: seq<real>)
    requires |data| >= 2
    ensures |MovingAverageOf(data, RouteWindow(|data|))| > |data| / 2
    ensures forall i :: 0 <= i < |MovingAverageOf(data, RouteWindow(|data|))| ==>
      MovingAverageOf(data, RouteWindow(|data|))[i].Defined?
  {
  }
}
