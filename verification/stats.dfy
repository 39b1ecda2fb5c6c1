/**
 * Descriptive statistics over idealised real-valued rates: the sum, the
 * extremes, the arithmetic mean and the sample variance with Bessel's
 * (n - 1) denominator, as pandas computes them with Series.mean, .max, .min
 * and .std (ddof = 1).
 */
module Stats {

  /** Sum of a sequence, accumulated from the left. */
  function Sum(s: seq<real>): real
  {
    if s == [] then 0.0 else Sum(s[..|s| - 1]) + s[|s| - 1]
  }

  lemma {:induction false} SumConcat(a: seq<real>, b: seq<real>)
    ensures Sum(a + b) == Sum(a) + Sum(b)
  {
    if b == [] {
      assert a + b == a;
    } else {
      assert (a + b)[..|a + b| - 1] == a + b[..|b| - 1];
      SumConcat(a, b[..|b| - 1]);
    }
  }

  /** A sum of values that are all at most hi is at most |s| * hi. */
  lemma {:induction false} SumAtMost(s: seq<real>, hi: real)
    requires forall i | 0 <= i < |s| :: s[i] <= hi
    ensures Sum(s) <= |s| as real * hi
  {
    if s != [] {
      SumAtMost(s[..|s| - 1], hi);
      assert |s| as real * hi == (|s| - 1) as real * hi + hi;
    }
  }

  /** A sum of values that are all at least lo is at least |s| * lo. */
  lemma {:induction false} SumAtLeast(s: seq<real>, lo: real)
    requires forall i | 0 <= i < |s| :: lo <= s[i]
    ensures |s| as real * lo <= Sum(s)
  {
    if s != [] {
      SumAtLeast(s[..|s| - 1], lo);
      assert |s| as real * lo == (|s| - 1) as real * lo + lo;
    }
  }

  /** The largest value (pandas Series.max). */
  function Max(s: seq<real>): (m: real)
    requires s != []
    ensures m in s
    ensures forall i | 0 <= i < |s| :: s[i] <= m
  {
    if |s| == 1 then s[0]
    else
      var m' := Max(s[..|s| - 1]);
      if m' < s[|s| - 1] then s[|s| - 1] else m'
  }

  /** The smallest value (pandas Series.min). */
  function Min(s: seq<real>): (m: real)
    requires s != []
    ensures m in s
    ensures forall i | 0 <= i < |s| :: m <= s[i]
  {
    if |s| == 1 then s[0]
    else
      var m' := Min(s[..|s| - 1]);
      if s[|s| - 1] < m' then s[|s| - 1] else m'
  }

  /** Dividing by a positive count keeps a bound that held for count times the value. */
  lemma QuotientBetween(total: real, n: real, lo: real, hi: real)
    requires 0.0 < n
    requires n * lo <= total <= n * hi
    ensures lo <= total / n <= hi
  {
    var q := total / n;
    assert total == n * q;
  }

  lemma ExtremesBound(s: seq<real>, x: real)
    requires x in s
    ensures Min(s) <= x <= Max(s)
  {
    var k :| 0 <= k < |s| && s[k] == x;
  }

  /** The arithmetic mean (pandas Series.mean); it lies between the extremes. */
  function Mean(s: seq<real>): (m: real)
    requires s != []
    ensures Min(s) <= m <= Max(s)
  {
    SumAtMost(s, Max(s));
    SumAtLeast(s, Min(s));
    QuotientBetween(Sum(s), |s| as real, Min(s), Max(s));
    Sum(s) / |s| as real
  }

  function Square(x: real): real
  {
    x * x
  }

  /** The total of the squared deviations of the values from m. */
  function SumSquares(s: seq<real>, m: real): real
  {
    if s == [] then 0.0 else SumSquares(s[..|s| - 1], m) + Square(s[|s| - 1] - m)
  }

  /**
   * The sample variance (pandas Series.var with ddof = 1): the squared
   * deviations from the mean of the whole sequence, divided by n - 1.
   */
  function SampleVariance(s: seq<real>): (v: real)
    requires |s| >= 2
    ensures 0.0 <= v
  {
    SumSquaresNonNegative(s, Mean(s));
    SumSquares(s, Mean(s)) / (|s| - 1) as real
  }

  /** Every value equals the first. */
  predicate Constant(s: seq<real>)
  {
    forall i | 0 <= i < |s| :: s[i] == s[0]
  }

  lemma SquarePositive(x: real)
    requires x != 0.0
    ensures 0.0 < Square(x)
  {
    var y := if x < 0.0 then -x else x;
    calc {
      Square(x);
      x * x;
      y * y;
    >  { assert 0.0 < y * y; }
      0.0;
    }
  }

  lemma SquareNonNegative(x: real)
    ensures 0.0 <= Square(x)
  {
    if x != 0.0 {
      SquarePositive(x);
    }
  }

  lemma PositiveQuotient(a: real, b: real)
    requires 0.0 < a && 0.0 < b
    ensures 0.0 < a / b
  {
    assert a == b * (a / b);
  }

  lemma {:induction false} SumSquaresNonNegative(s: seq<real>, m: real)
    ensures 0.0 <= SumSquares(s, m)
  {
    if s != [] {
      SumSquaresNonNegative(s[..|s| - 1], m);
      SquareNonNegative(s[|s| - 1] - m);
    }
  }

  /** Values that all equal m do not deviate from m at all. */
  lemma {:induction false} SumSquaresOfCentre(s: seq<real>, m: real)
    requires forall i | 0 <= i < |s| :: s[i] == m
    ensures SumSquares(s, m) == 0.0
  {
    if s != [] {
      SumSquaresOfCentre(s[..|s| - 1], m);
    }
  }

  /** One value away from m makes the squared deviations from m total a positive amount. */
  lemma {:induction false} SumSquaresPositive(s: seq<real>, m: real, k: nat)
    requires k < |s| && s[k] != m
    ensures 0.0 < SumSquares(s, m)
  {
    var init := s[..|s| - 1];
    if k == |s| - 1 {
      SumSquaresNonNegative(init, m);
      SquarePositive(s[k] - m);
    } else {
      SumSquaresPositive(init, m, k);
      SquareNonNegative(s[|s| - 1] - m);
    }
  }

  lemma ConstantHasZeroVariance(s: seq<real>)
    requires |s| >= 2 && Constant(s)
    ensures SampleVariance(s) == 0.0
  {
    assert Max(s) == s[0] && Min(s) == s[0];
    SumSquaresOfCentre(s, Mean(s));
  }

  lemma VaryingHasPositiveVariance(s: seq<real>, i: nat)
    requires |s| >= 2 && i < |s| && s[i] != s[0]
    ensures 0.0 < SampleVariance(s)
  {
    var m := Mean(s);
    SumSquaresPositive(s, m, if s[i] != m then i else 0);
    PositiveQuotient(SumSquares(s, m), (|s| - 1) as real);
  }

  /** The sample variance vanishes exactly when all values are equal. */
  lemma VarianceZeroIffConstant(s: seq<real>)
    requires |s| >= 2
    ensures SampleVariance(s) == 0.0 <==> Constant(s)
  {
    if Constant(s) {
      ConstantHasZeroVariance(s);
    } else {
      var i :| 0 <= i < |s| && s[i] != s[0];
      VaryingHasPositiveVariance(s, i);
    }
  }

  lemma {:induction false} SumOfConstant(n: nat, c: real)
    ensures Sum(seq(n, _ => c)) == n as real * c
  {
    if n > 0 {
      assert seq(n, _ => c)[..n - 1] == seq(n - 1, _ => c);
      SumOfConstant(n - 1, c);
    }
  }

  /** Taking out the element at k leaves the rest of the sequence, in order. */
  lemma SplitAt<T>(b: seq<T>, k: nat)
    requires k < |b|
    ensures b == b[..k] + [b[k]] + b[k + 1..]
    ensures multiset(b[..k] + b[k + 1..]) == multiset(b) - multiset{b[k]}
  {
    assert b == b[..k] + [b[k]] + b[k + 1..];
  }

  /** The total of f over a sequence, accumulated from the left. */
  function SumOf(s: seq<real>, f: real -> real): real
  {
    if s == [] then 0.0 else SumOf(s[..|s| - 1], f) + f(s[|s| - 1])
  }

  lemma {:induction false} SumOfConcat(a: seq<real>, b: seq<real>, f: real -> real)
    ensures SumOf(a + b, f) == SumOf(a, f) + SumOf(b, f)
  {
    if b == [] {
      assert a + b == a;
    } else {
      assert (a + b)[..|a + b| - 1] == a + b[..|b| - 1];
      SumOfConcat(a, b[..|b| - 1], f);
    }
  }

  /** Taking out the value at k takes f of it out of the total. */
  lemma SumOfRemove(b: seq<real>, k: nat, f: real -> real)
    requires k < |b|
    ensures SumOf(b, f) == SumOf(b[..k] + b[k + 1..], f) + f(b[k])
  {
    var left, x, right := b[..k], b[k], b[k + 1..];
    assert SumOf(b, f) == SumOf(left, f) + SumOf([x] + right, f) by {
      assert b == left + ([x] + right);
      SumOfConcat(left, [x] + right, f);
    }
    assert SumOf([x] + right, f) == f(x) + SumOf(right, f) by {
      SumOfConcat([x], right, f);
      assert [x][..0] == [];
    }
    SumOfConcat(left, right, f);
  }

  /**
   * The last value of a occurs somewhere in a reordering b of a, and taking
   * it out of b leaves a reordering of the rest of a.
   */
  lemma MatchLast<T>(a: seq<T>, b: seq<T>) returns (k: nat)
    requires a != [] && multiset(a) == multiset(b)
    ensures k < |b| && b[k] == a[|a| - 1]
    ensures multiset(b[..k] + b[k + 1..]) == multiset(a[..|a| - 1])
  {
    var x, a' := a[|a| - 1], a[..|a| - 1];
    assert multiset(a') == multiset(a) - multiset{x} && x in multiset(b) by {
      assert a == a' + [x];
    }
    k :| 0 <= k < |b| && b[k] == x;
    SplitAt(b, k);
  }

  /** A total over the values does not depend on their order. */
  lemma {:induction false} SumOfPermutation(a: seq<real>, b: seq<real>, f: real -> real)
    requires multiset(a) == multiset(b)
    ensures SumOf(a, f) == SumOf(b, f)
  {
    if a == [] {
      assert |b| == |multiset(b)| == 0;
    } else {
      var k := MatchLast(a, b);
      SumOfPermutation(a[..|a| - 1], b[..k] + b[k + 1..], f);
      SumOfRemove(b, k, f);
    }
  }

  /** The plain sum is the total of the identity. */
  lemma {:induction false} SumIsSumOf(s: seq<real>, f: real -> real)
    requires forall x :: f(x) == x
    ensures Sum(s) == SumOf(s, f)
  {
    if s != [] {
      SumIsSumOf(s[..|s| - 1], f);
    }
  }

  /** The squared deviations from m total the same as f, when f squares the deviation. */
  lemma {:induction false} SumSquaresIsSumOf(s: seq<real>, m: real, f: real -> real)
    requires forall x :: f(x) == Square(x - m)
    ensures SumSquares(s, m) == SumOf(s, f)
  {
    if s != [] {
      SumSquaresIsSumOf(s[..|s| - 1], m, f);
    }
  }

  /**
   * Extremes, mean and sample variance depend only on the multiset of
   * values, not on their order.
   */
  lemma StatisticsOfPermutation(a: seq<real>, b: seq<real>)
    requires a != [] && multiset(a) == multiset(b)
    ensures b != [] && |a| == |b|
    ensures Max(a) == Max(b) && Min(a) == Min(b) && Mean(a) == Mean(b)
    ensures |a| >= 2 ==> SampleVariance(a) == SampleVariance(b)
  {
    assert |a| == |multiset(a)| == |multiset(b)| == |b|;
    assert forall x :: x in a <==> x in b by {
      forall x ensures x in a <==> x in b {
        assert x in a <==> x in multiset(a);
        assert x in b <==> x in multiset(b);
      }
    }
    var id := (x: real) => x;
    SumIsSumOf(a, id);
    SumIsSumOf(b, id);
    SumOfPermutation(a, b, id);
    var m := Mean(a);
    var sq := (x: real) => Square(x - m);
    SumSquaresIsSumOf(a, m, sq);
    SumSquaresIsSumOf(b, m, sq);
    SumOfPermutation(a, b, sq);
  }
}
