/**
 * Trailing rolling means, as pandas computes rate.rolling(window=w).mean()
 * with its default min_periods = w: the value at row i is the mean of rows
 * i-w+1..i, and it is missing when fewer than w rows exist yet or when any
 * rate in the window is missing.
 */
module Rolling {
  import opened Wrappers
  import opened Stats
  import opened Series

  /** The two windows the analysis draws: a 7-row and a 30-row moving average. */
  const ShortWindow: nat := 7
  const LongWindow: nat := 30

  /** The rows of the trailing window of width w that ends at row i. */
  function Window(rates: seq<Option<real>>, w: nat, i: nat): seq<Option<real>>
    requires 1 <= w <= i + 1 <= |rates|
  {
    rates[i + 1 - w..i + 1]
  }

  /** The value of the rolling-mean column at row i. */
  function RollingMeanAt(rates: seq<Option<real>>, w: nat, i: nat): (r: Option<real>)
    requires 1 <= w && i < |rates|
    ensures r.Some? ==> w <= i + 1 && Present(Window(rates, w, i)) != []
    ensures r.Some? ==> Min(Present(Window(rates, w, i))) <= r.value <= Max(Present(Window(rates, w, i)))
  {
    if i + 1 < w then None
    else
      var win := Window(rates, w, i);
      if |Present(win)| == w then Some(Mean(Present(win))) else None
  }

  /** First row of the window the sliding sum covers before row i is added. */
  function Start(i: nat, w: nat): nat
  {
    if i >= w then i - w else 0
  }

  /** The value emitted for a window holding count present rates that sum to sum. */
  function Emit(sum: real, count: int, w: nat): Option<real>
    requires 1 <= w
  {
    if count >= w then Some(sum / w as real) else None
  }

  /** What one row adds to the running sum, and to the count of present rates. */
  function Amount(r: Option<real>): real
  {
    if r.Some? then r.value else 0.0
  }

  function Tally(r: Option<real>): nat
  {
    if r.Some? then 1 else 0
  }

  lemma PresentOfOne(r: Option<real>)
    ensures Sum(Present([r])) == Amount(r) && |Present([r])| == Tally(r)
  {
    assert [r][..0] == [];
  }

  /**
   * Moving from row i to row i + 1 adds the entering rate to the running
   * sum and count and, once the window is full, removes the leaving one.
   */
  lemma {:induction false} Slide(rates: seq<Option<real>>, w: nat, i: nat)
    requires 1 <= w && i < |rates|
    ensures Sum(Present(rates[Start(i + 1, w)..i + 1]))
         == Sum(Present(rates[Start(i, w)..i])) + Amount(rates[i])
            - (if i >= w then Amount(rates[i - w]) else 0.0)
    ensures |Present(rates[Start(i + 1, w)..i + 1])|
         == |Present(rates[Start(i, w)..i])| + Tally(rates[i])
            - (if i >= w then Tally(rates[i - w]) else 0)
  {
    var lo, hi := Start(i, w), Start(i + 1, w);
    if i >= w {
      assert hi == lo + 1;
      SlideFull(rates, lo, i);
    } else {
      assert hi == lo;
      Grow(rates, lo, i);
    }
  }

  /** A full window moving on by one row gains row last and loses row lo. */
  lemma SlideFull(rates: seq<Option<real>>, lo: nat, last: nat)
    requires lo < last < |rates|
    ensures Sum(Present(rates[lo + 1..last + 1]))
         == Sum(Present(rates[lo..last])) + Amount(rates[last]) - Amount(rates[lo])
    ensures |Present(rates[lo + 1..last + 1])|
         == |Present(rates[lo..last])| + Tally(rates[last]) - Tally(rates[lo])
  {
    Grow(rates, lo, last);
    Shrink(rates, lo, last + 1);
  }

  /** Extending a slice by row last adds that row's amount and tally. */
  lemma Grow(rates: seq<Option<real>>, lo: nat, last: nat)
    requires lo <= last < |rates|
    ensures Sum(Present(rates[lo..last + 1])) == Sum(Present(rates[lo..last])) + Amount(rates[last])
    ensures |Present(rates[lo..last + 1])| == |Present(rates[lo..last])| + Tally(rates[last])
  {
    assert rates[lo..last + 1] == rates[lo..last] + [rates[last]];
    Enter(rates[lo..last], rates[last]);
  }

  /** Dropping the first row of a slice takes that row's amount and tally out. */
  lemma Shrink(rates: seq<Option<real>>, lo: nat, hi: nat)
    requires lo < hi <= |rates|
    ensures Sum(Present(rates[lo..hi])) == Amount(rates[lo]) + Sum(Present(rates[lo + 1..hi]))
    ensures |Present(rates[lo..hi])| == Tally(rates[lo]) + |Present(rates[lo + 1..hi])|
  {
    assert rates[lo..hi] == [rates[lo]] + rates[lo + 1..hi];
    Leave(rates[lo], rates[lo + 1..hi]);
  }

  /** A row appended to a window adds its amount to the sum and its tally to the count. */
  lemma Enter(s: seq<Option<real>>, r: Option<real>)
    ensures Sum(Present(s + [r])) == Sum(Present(s)) + Amount(r)
    ensures |Present(s + [r])| == |Present(s)| + Tally(r)
  {
    PresentConcat(s, [r]);
    SumConcat(Present(s), Present([r]));
    PresentOfOne(r);
  }

  /** A row at the front of a window contributes its amount and its tally. */
  lemma Leave(r: Option<real>, s: seq<Option<real>>)
    ensures Sum(Present([r] + s)) == Amount(r) + Sum(Present(s))
    ensures |Present([r] + s)| == Tally(r) + |Present(s)|
  {
    PresentConcat([r], s);
    SumConcat(Present([r]), Present(s));
    PresentOfOne(r);
  }

  /**
   * The window after row i holds w present rates exactly when row i has a
   * full window of width w with no rate missing.
   */
  lemma FullWindow(rates: seq<Option<real>>, w: nat, i: nat)
    requires 1 <= w && i < |rates|
    ensures var win := rates[Start(i + 1, w)..i + 1];
      RollingMeanAt(rates, w, i) == Emit(Sum(Present(win)), |Present(win)|, w)
  {
  }

  /**
   * A sliding sum and count that covered the window before row i, updated
   * with the entering and the leaving row, give the rolling mean at row i.
   */
  lemma Step(rates: seq<Option<real>>, w: nat, i: nat, sum: real, count: int, sum': real, count': int)
    requires 1 <= w && i < |rates|
    requires sum == Sum(Present(rates[Start(i, w)..i])) && count == |Present(rates[Start(i, w)..i])|
    requires sum' == sum + Amount(rates[i]) - (if i >= w then Amount(rates[i - w]) else 0.0)
    requires count' == count + Tally(rates[i]) - (if i >= w then Tally(rates[i - w]) else 0)
    ensures sum' == Sum(Present(rates[Start(i + 1, w)..i + 1]))
    ensures count' == |Present(rates[Start(i + 1, w)..i + 1])|
    ensures Emit(sum', count', w) == RollingMeanAt(rates, w, i)
  {
    Slide(rates, w, i);
    FullWindow(rates, w, i);
  }

  /**
   * Fills the rolling-mean column of width w, keeping a running sum and a
   * count of the present rates in the window, adding the entering row and
   * dropping the leaving one at each step.
   */
  method RollingMean(rates: seq<Option<real>>, w: nat) returns (column: seq<Option<real>>)
    requires 1 <= w
    ensures |column| == |rates|
    ensures forall i | 0 <= i < |rates| :: column[i] == RollingMeanAt(rates, w, i)
  {
    var out := new Option<real>[|rates|](_ => None);
    var sum := 0.0;
    var count := 0;
    for i := 0 to |rates|
      invariant sum == Sum(Present(rates[Start(i, w)..i]))
      invariant count == |Present(rates[Start(i, w)..i])|
      invariant forall k | 0 <= k < i :: out[k] == RollingMeanAt(rates, w, k)
    {
      ghost var sum0, count0 := sum, count;
      sum := sum + Amount(rates[i]);
      count := count + Tally(rates[i]);
      if i >= w {
        sum := sum - Amount(rates[i - w]);
        count := count - Tally(rates[i - w]);
      }
      Step(rates, w, i, sum0, count0, sum, count);
      out[i] := Emit(sum, count, w);
    }
    column := out[..];
  }

  /**
   * A defined rolling mean comes from a full window with no rate missing,
   * and it is the mean of that window's rates.
   */
  lemma DefinedRollingMean(rates: seq<Option<real>>, w: nat, i: nat)
    requires 1 <= w && i < |rates| && RollingMeanAt(rates, w, i).Some?
    ensures w <= i + 1
    ensures forall k | i + 1 - w <= k <= i :: rates[k].Some?
    ensures RollingMeanAt(rates, w, i).value == Mean(Present(Window(rates, w, i)))
    ensures RollingMeanAt(rates, w, i).value == Sum(Present(Window(rates, w, i))) / w as real
  {
    var win := Window(rates, w, i);
    PresentComplete(win);
    forall k | i + 1 - w <= k <= i ensures rates[k].Some? {
      assert rates[k] == win[k - (i + 1 - w)];
    }
  }

  /**
   * A defined rolling mean lies between the smallest and the largest rate
   * of the whole series.
   */
  lemma RollingMeanWithinRange(rates: seq<Option<real>>, w: nat, i: nat, v: real)
    requires 1 <= w && i < |rates| && RollingMeanAt(rates, w, i) == Some(v)
    ensures Present(rates) != [] && Min(Present(rates)) <= v <= Max(Present(rates))
  {
    WithinWindow(rates, w, i, v);
  }

  /** A value between the extremes of a window lies between those of the whole series. */
  lemma WithinWindow(rates: seq<Option<real>>, w: nat, i: nat, v: real)
    requires 1 <= w <= i + 1 <= |rates| && Present(Window(rates, w, i)) != []
    requires Min(Present(Window(rates, w, i))) <= v <= Max(Present(Window(rates, w, i)))
    ensures Present(rates) != [] && Min(Present(rates)) <= v <= Max(Present(rates))
  {
    var lo, hi := i + 1 - w, i + 1;
    assert Present(Window(rates, w, i)) == Present(rates[lo..hi]);
    WithinSlice(rates, lo, hi, v);
  }

  /** The same for a slice of rows lo..hi - 1. */
  lemma WithinSlice(rates: seq<Option<real>>, lo: nat, hi: nat, v: real)
    requires lo <= hi <= |rates| && Present(rates[lo..hi]) != []
    requires Min(Present(rates[lo..hi])) <= v <= Max(Present(rates[lo..hi]))
    ensures Present(rates) != [] && Min(Present(rates)) <= v <= Max(Present(rates))
  {
    SliceExtremes(rates, lo, hi);
  }

  /** The extremes of a slice's present rates lie within those of the whole series. */
  lemma SliceExtremes(rates: seq<Option<real>>, lo: nat, hi: nat)
    requires lo <= hi <= |rates| && Present(rates[lo..hi]) != []
    ensures Present(rates) != []
    ensures Min(Present(rates)) <= Min(Present(rates[lo..hi]))
    ensures Max(Present(rates[lo..hi])) <= Max(Present(rates))
  {
    var q := Present(rates[lo..hi]);
    PresentOfSlice(rates, lo, hi, Min(q));
    PresentOfSlice(rates, lo, hi, Max(q));
    ExtremesBound(Present(rates), Min(q));
    ExtremesBound(Present(rates), Max(q));
  }

  /**
   * A full window of width w that has no missing rate yields the mean of
   * its rates.
   */
  lemma RollingMeanDefinedWhenFull(rates: seq<Option<real>>, w: nat, i: nat)
    requires 1 <= w <= i + 1 <= |rates|
    requires forall k | i + 1 - w <= k <= i :: rates[k].Some?
    ensures RollingMeanAt(rates, w, i) == Some(Mean(Present(Window(rates, w, i))))
  {
    var win := Window(rates, w, i);
    assert forall k | 0 <= k < |win| :: win[k] == rates[k + (i + 1 - w)];
    PresentComplete(win);
  }
}
