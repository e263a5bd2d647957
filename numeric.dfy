/** Exact-arithmetic counterparts of the JavaScript number operations used by
    the analytics code: rounding, division that may not be defined, and the
    sums computed with `reduce`. */
module Numeric {

  datatype Option<+T> = None | Some(value: T)

  /** The outcome of a JavaScript division. `Undefined` stands for the NaN
      (0/0) or Infinity (x/0) that a zero divisor produces. */
  datatype Ratio = Defined(value: real) | Undefined

  function Divide(a: real, b: real): (q: Ratio)
    ensures q.Defined? <==> b != 0.0
    ensures q.Defined? ==> q.value * b == a
  {
    if b == 0.0 then Undefined else Defined(a / b)
  }

  /** `Math.round`: the nearest integer, halves rounded up. */
  function Round(x: real): (n: int)
    ensures n as real - 0.5 <= x < n as real + 0.5
  {
    (x + 0.5).Floor
  }

  /** `Math.round(x * 10) / 10`: one decimal place. */
  function Round1(x: real): (r: real)
    ensures x - 0.05 < r <= x + 0.05
    ensures r == Round(10.0 * x) as real / 10.0
  {
    Round(10.0 * x) as real / 10.0
  }

  /** `Math.round(x * 100) / 100`: two decimal places. */
  function Round2(x: real): (r: real)
    ensures x - 0.005 < r <= x + 0.005
    ensures r == Round(100.0 * x) as real / 100.0
  {
    Round(100.0 * x) as real / 100.0
  }

  /** `Math.ceil`. */
  function Ceil(x: real): (n: int)
    ensures x <= n as real < x + 1.0
  {
    -((-x).Floor)
  }

  function Min(a: int, b: int): (m: int)
    ensures m <= a && m <= b && (m == a || m == b)
  {
    if a <= b then a else b
  }

  function Max(a: int, b: int): (m: int)
    ensures m >= a && m >= b && (m == a || m == b)
  {
    if a >= b then a else b
  }

  /** `Math.min` of two numbers. The shares and line values it is applied
      to are `real`, so `Min` on `int` does not serve; likewise `RealMax`. */
  function RealMin(a: real, b: real): (m: real)
    ensures m <= a && m <= b && (m == a || m == b)
  {
    if a <= b then a else b
  }

  /** `Math.max` of two numbers. */
  function RealMax(a: real, b: real): (m: real)
    ensures m >= a && m >= b && (m == a || m == b)
  {
    if a >= b then a else b
  }

  function Abs(x: real): (y: real)
    ensures y >= 0.0 && (y == x || y == -x)
  {
    if x < 0.0 then -x else x
  }

  function Square(x: real): real { x * x }

  lemma RoundMonotone(x: real, y: real)
    requires x <= y
    ensures Round(x) <= Round(y)
  {
  }

  lemma Round1Monotone(x: real, y: real)
    requires x <= y
    ensures Round1(x) <= Round1(y)
  {
    RoundMonotone(10.0 * x, 10.0 * y);
  }

  lemma Round2Monotone(x: real, y: real)
    requires x <= y
    ensures Round2(x) <= Round2(y)
  {
    RoundMonotone(100.0 * x, 100.0 * y);
  }

  lemma RoundOfInteger(n: int)
    ensures Round(n as real) == n
  {
  }

  /** Rounding keeps a value inside integer bounds that enclose it. */
  lemma RoundWithin(x: real, lo: int, hi: int)
    requires lo as real <= x <= hi as real
    ensures lo <= Round(x) <= hi
  {
    RoundMonotone(lo as real, x);
    RoundMonotone(x, hi as real);
    RoundOfInteger(lo);
    RoundOfInteger(hi);
  }

  lemma QuotientOfMultiple(b: real, c: real)
    requires c != 0.0
    ensures (b * c) / c == b
  {
  }

  /** Division distributes over a sum. */
  lemma QuotientOfSum(a: real, b: real, c: real)
    requires c != 0.0
    ensures (a + b) / c == a / c + b / c
  {
  }

  lemma SelfQuotient(c: real)
    requires c != 0.0
    ensures c / c == 1.0
  {
  }

  /** `p / p` is 1, or the NaN of 0/0. */
  lemma DivideSelf(p: real)
    ensures Divide(p, p) == if p == 0.0 then Undefined else Defined(1.0)
  {
  }

  lemma SquareNonnegative(x: real)
    ensures x * x >= 0.0
  {
    if x < 0.0 {
      assert x * x == (-x) * (-x);
    }
  }

  lemma SquareNonzero(x: real)
    requires x != 0.0
    ensures x * x > 0.0
  {
    if x < 0.0 {
      assert x * x == (-x) * (-x);
    }
  }

  lemma QuotientBelow(a: real, w: real, c: real)
    requires w > 0.0 && a / w < c
    ensures a < c * w
  {
    QuotientOfMultiple(a, w);
    assert a == (a / w) * w;
  }

  lemma QuotientAtLeast(a: real, w: real, c: real)
    requires w > 0.0 && a >= c * w
    ensures a / w >= c
  {
    QuotientOfMultiple(c, w);
  }

  /** Dividing by a positive number keeps comparisons: `a / w > c` exactly
      when `a > c * w`. */
  lemma QuotientAbove(a: real, w: real, c: real)
    requires w > 0.0
    ensures a / w > c <==> a > c * w
  {
    var q := a / w;
    QuotientOfMultiple(a, w);
    assert a == q * w;
    assert a - c * w == (q - c) * w;
  }

  lemma Round1OfInteger(n: int)
    ensures Round1(n as real) == n as real
  {
    RoundOfInteger(10 * n);
    assert 10.0 * n as real == (10 * n) as real;
  }

  /** `Math.round(k / n * 100)` for `0 <= k <= n` is a percentage, 100 for
      `k == n` and 0 for `k == 0`. */
  lemma RoundedPercentage(k: nat, n: nat)
    requires 0 < n && k <= n
    ensures 0 <= Round(k as real / n as real * 100.0) <= 100
    ensures k == n ==> Round(k as real / n as real * 100.0) == 100
    ensures k == 0 ==> Round(k as real / n as real * 100.0) == 0
  {
    QuotientAbove(k as real, n as real, 1.0);
    var share := k as real / n as real;
    RoundWithin(share * 100.0, 0, 100);
    if k == n {
      SelfQuotient(n as real);
      RoundOfInteger(100);
    }
    if k == 0 {
      RoundOfInteger(0);
    }
  }

  /** `Math.round(k / n * 100)` is 0 or less exactly when `k` is under half
      a percent of `n`. */
  lemma RoundedPercentageVanishes(k: int, n: int)
    requires 0 < n
    ensures Round(k as real / n as real * 100.0) <= 0 <==> 200 * k < n
  {
    var share := k as real / n as real;
    QuotientAbove(k as real, n as real, 0.005);
    assert share * n as real == k as real;
    assert share == 0.005 <==> 200 * k == n;
  }

  /** The sign of a product with a positive factor. */
  lemma ProductSign(a: real, b: real)
    requires b > 0.0
    ensures a < 0.0 ==> a * b < 0.0
    ensures a >= 0.0 ==> a * b >= 0.0
  {
  }

  /** A total divided by its own (non-zero) mean gives back the count. */
  lemma MeanOverMean(total: real, n: real)
    requires n > 0.0 && total != 0.0
    ensures total / (total / n) == n
  {
    var m := total / n;
    QuotientOfMultiple(m, n);
    assert total == m * n;
    QuotientOfMultiple(n, m);
  }

  /** A positive multiple of `p` is at least `p`. */
  lemma {:induction false} MulAtLeast(p: int, d: int)
    requires p > 0 && d >= 1
    ensures p * d >= p
    decreases d
  {
    if d > 1 {
      MulAtLeast(p, d - 1);
      assert p * d == p * (d - 1) + p;
    }
  }

  /** A non-zero multiple of `p` is at least `p` away from 0. */
  lemma MulAwayFromZero(p: int, d: int)
    requires p > 0 && d != 0
    ensures p * d >= p || p * d <= -p
  {
    if d >= 1 {
      MulAtLeast(p, d);
    } else {
      MulAtLeast(p, -d);
      assert p * d == -(p * -d);
    }
  }

  /** Quotient and remainder are the unique `q`, `r` with `i == q * p + r`
      and `0 <= r < p`. */
  lemma DivModUnique(i: int, p: int, q: int, r: int)
    requires p > 0 && 0 <= r < p && i == q * p + r
    ensures i / p == q && i % p == r
  {
    var q0, r0 := i / p, i % p;
    assert i == p * q0 + r0;
    assert p * (q0 - q) == r - r0;
    if q0 != q {
      MulAwayFromZero(p, q0 - q);
    }
  }

  // ---------------------------------------------------------------------------
  // Sums

  /** The sum of `f` over the elements, added from the left. */
  function SumBy<T>(s: seq<T>, f: T -> real): real
  {
    if |s| == 0 then 0.0 else SumBy(s[..|s| - 1], f) + f(s[|s| - 1])
  }

  function Identity(v: real): real { v }

  /** The sum of a sequence of numbers. */
  function Sum(s: seq<real>): real
  {
    SumBy(s, Identity)
  }

  /** The sum of a sequence of counts. */
  function IntSum(s: seq<int>): int
  {
    if |s| == 0 then 0 else IntSum(s[..|s| - 1]) + s[|s| - 1]
  }

  /** A sequence of counts read as numbers. */
  function AsReals(s: seq<int>): (r: seq<real>)
    ensures |r| == |s| && forall i :: 0 <= i < |s| ==> r[i] == s[i] as real
  {
    seq(|s|, i requires 0 <= i < |s| => s[i] as real)
  }

  lemma {:induction false} SumByAppend<T>(a: seq<T>, b: seq<T>, f: T -> real)
    ensures SumBy(a + b, f) == SumBy(a, f) + SumBy(b, f)
    decreases |b|
  {
    if |b| == 0 {
      assert a + b == a;
    } else {
      assert (a + b)[..|a + b| - 1] == a + b[..|b| - 1];
      SumByAppend(a, b[..|b| - 1], f);
    }
  }

  lemma SumAppend(a: seq<real>, b: seq<real>)
    ensures Sum(a + b) == Sum(a) + Sum(b)
  {
    SumByAppend(a, b, Identity);
  }

  lemma {:induction false} IntSumAppend(a: seq<int>, b: seq<int>)
    ensures IntSum(a + b) == IntSum(a) + IntSum(b)
    decreases |b|
  {
    if |b| == 0 {
      assert a + b == a;
    } else {
      assert (a + b)[..|a + b| - 1] == a + b[..|b| - 1];
      IntSumAppend(a, b[..|b| - 1]);
    }
  }

  /** Summing the prefix one element longer adds that element. */
  lemma IntSumPrefixStep(s: seq<int>, i: nat)
    requires i < |s|
    ensures IntSum(s[..i + 1]) == IntSum(s[..i]) + s[i]
  {
    assert s[..i + 1][..i] == s[..i];
  }

  /** `IntSumPrefixStep` at every position. */
  lemma IntSumPrefixSteps(s: seq<int>)
    ensures forall i :: 0 <= i < |s| ==> IntSum(s[..i + 1]) == IntSum(s[..i]) + s[i]
  {
    forall i | 0 <= i < |s|
      ensures IntSum(s[..i + 1]) == IntSum(s[..i]) + s[i]
    {
      IntSumPrefixStep(s, i);
    }
  }

  /** When `w` starts at 0 and each element of `s` is the step from `w(j)`
      to `w(j + 1)`, the prefix sums of `s` are the values of `w`. */
  lemma {:induction false} PrefixSumsTelescope(s: seq<int>, w: int -> int, k: nat)
    requires k <= |s| && w(0) == 0
    requires forall j :: 0 <= j < |s| ==> w(j) + s[j] == w(j + 1)
    ensures IntSum(s[..k]) == w(k)
  {
    if k == 0 {
      assert s[..0] == [];
    } else {
      PrefixSumsTelescope(s, w, k - 1);
      IntSumPrefixStep(s, k - 1);
    }
  }

  lemma SumPrefixStep(s: seq<real>, i: nat)
    requires i < |s|
    ensures Sum(s[..i + 1]) == Sum(s[..i]) + s[i]
  {
    assert s[..i + 1][..i] == s[..i];
  }

  lemma {:induction false} SumAsReals(s: seq<int>)
    ensures Sum(AsReals(s)) == IntSum(s) as real
    decreases |s|
  {
    if |s| > 0 {
      assert AsReals(s)[..|s| - 1] == AsReals(s[..|s| - 1]);
      SumAsReals(s[..|s| - 1]);
    }
  }

  lemma {:induction false} IntSumNonnegative(s: seq<int>)
    requires forall i :: 0 <= i < |s| ==> s[i] >= 0
    ensures IntSum(s) >= 0
    decreases |s|
  {
    if |s| > 0 {
      IntSumNonnegative(s[..|s| - 1]);
    }
  }

  lemma {:induction false} IntSumBounded(s: seq<int>, hi: int)
    requires forall i :: 0 <= i < |s| ==> 0 <= s[i] <= hi
    ensures 0 <= IntSum(s) <= |s| * hi
    decreases |s|
  {
    if |s| > 0 {
      IntSumBounded(s[..|s| - 1], hi);
    }
  }

  lemma {:induction false} SumByNonnegative<T>(s: seq<T>, f: T -> real)
    requires forall i :: 0 <= i < |s| ==> f(s[i]) >= 0.0
    ensures SumBy(s, f) >= 0.0
    decreases |s|
  {
    if |s| > 0 {
      SumByNonnegative(s[..|s| - 1], f);
    }
  }

  /** A sum of non-negative terms is positive as soon as one term is. */
  lemma {:induction false} SumByPositive<T>(s: seq<T>, f: T -> real, k: nat)
    requires forall i :: 0 <= i < |s| ==> f(s[i]) >= 0.0
    requires k < |s|
    requires f(s[k]) > 0.0
    ensures SumBy(s, f) > 0.0
    decreases |s|
  {
    if k == |s| - 1 {
      SumByNonnegative(s[..|s| - 1], f);
    } else {
      SumByPositive(s[..|s| - 1], f, k);
    }
  }

  /** A sum of terms that are each `a + b * g` is `n * a + b * (sum of g)`. */
  lemma {:induction false} SumByAffine<T>(s: seq<T>, f: T -> real, g: T -> real, a: real, b: real)
    requires forall i :: 0 <= i < |s| ==> f(s[i]) == a + b * g(s[i])
    ensures SumBy(s, f) == |s| as real * a + b * SumBy(s, g)
    decreases |s|
  {
    if |s| > 0 {
      SumByAffine(s[..|s| - 1], f, g, a, b);
      calc {
        SumBy(s, f);
        SumBy(s[..|s| - 1], f) + f(s[|s| - 1]);
        (|s| - 1) as real * a + b * SumBy(s[..|s| - 1], g) + a + b * g(s[|s| - 1]);
        |s| as real * a + b * (SumBy(s[..|s| - 1], g) + g(s[|s| - 1]));
      }
    }
  }

  /** Every term of `f` is `c` times the matching term of `g`. */
  predicate ScaledTerms<T>(s: seq<T>, f: T -> real, g: T -> real, c: real)
  {
    forall i :: 0 <= i < |s| ==> f(s[i]) == c * g(s[i])
  }

  /** A sum of terms that are each `c` times another term is `c` times
      the other sum. */
  lemma SumByScaled<T>(s: seq<T>, f: T -> real, g: T -> real, c: real)
    requires ScaledTerms(s, f, g, c)
    ensures SumBy(s, f) == c * SumBy(s, g)
  {
    SumByAffine(s, f, g, 0.0, c);
  }

  /** Sums of two sequences agree when their terms agree position by position. */
  lemma {:induction false} SumByPointwise<A, B>(a: seq<A>, b: seq<B>, f: A -> real, g: B -> real)
    requires |a| == |b|
    requires forall i :: 0 <= i < |a| ==> f(a[i]) == g(b[i])
    ensures SumBy(a, f) == SumBy(b, g)
    decreases |a|
  {
    if |a| > 0 {
      SumByPointwise(a[..|a| - 1], b[..|b| - 1], f, g);
    }
  }

  /** A non-empty sum of terms each above `lo` is above `n * lo`. */
  lemma {:induction false} SumByAbove<T>(s: seq<T>, f: T -> real, lo: real)
    requires |s| > 0
    requires forall i :: 0 <= i < |s| ==> f(s[i]) > lo
    ensures SumBy(s, f) > |s| as real * lo
    decreases |s|
  {
    if |s| > 1 {
      SumByAbove(s[..|s| - 1], f, lo);
      assert |s| as real * lo == (|s| - 1) as real * lo + lo;
    }
  }

  /** Terms bounded by `lo` and `hi` give a sum between `n * lo` and `n * hi`. */
  lemma {:induction false} SumByBounds<T>(s: seq<T>, f: T -> real, lo: real, hi: real)
    requires forall i :: 0 <= i < |s| ==> lo <= f(s[i]) <= hi
    ensures |s| as real * lo <= SumBy(s, f) <= |s| as real * hi
    decreases |s|
  {
    if |s| > 0 {
      SumByBounds(s[..|s| - 1], f, lo, hi);
      assert |s| as real * lo == (|s| - 1) as real * lo + lo;
      assert |s| as real * hi == (|s| - 1) as real * hi + hi;
    }
  }

  lemma SumBounds(s: seq<real>, lo: real, hi: real)
    requires forall i :: 0 <= i < |s| ==> lo <= s[i] <= hi
    ensures |s| as real * lo <= Sum(s) <= |s| as real * hi
  {
    SumByBounds(s, Identity, lo, hi);
  }

  /** The sum of `n` copies of `c` is `n * c`. */
  lemma SumConstant(s: seq<real>, c: real)
    requires forall i :: 0 <= i < |s| ==> s[i] == c
    ensures Sum(s) == |s| as real * c
  {
    SumBounds(s, c, c);
  }
}
