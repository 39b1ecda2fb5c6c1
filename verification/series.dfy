/**
 * The rate series: one observation per calendar day, as fetched from the
 * historical-rates provider, and the in-place sort by date that follows the
 * fetch. A rate that the provider left null is None.
 */
module Series {
  import opened Wrappers
  import opened Stats

  /** One (date, rate) row; the date is the provider's "YYYY-MM-DD" key. */
  datatype Observation = Observation(date: string, rate: Option<real>)

  /** The rate column of a series. */
  function Rates(series: seq<Observation>): seq<Option<real>>
  {
    seq(|series|, i requires 0 <= i < |series| => series[i].rate)
  }

  /** The rates that are not missing, in series order (what pandas aggregates over). */
  function Present(rates: seq<Option<real>>): (p: seq<real>)
    ensures |p| <= |rates|
  {
    if rates == [] then []
    else
      var init := Present(rates[..|rates| - 1]);
      match rates[|rates| - 1]
      case None => init
      case Some(v) => init + [v]
  }

  /** The present values are exactly the rates that are not missing. */
  lemma {:induction false} PresentMembers(rates: seq<Option<real>>)
    ensures forall i | 0 <= i < |rates| && rates[i].Some? :: rates[i].value in Present(rates)
    ensures forall x | x in Present(rates) :: Some(x) in rates
  {
    if rates != [] {
      var init := rates[..|rates| - 1];
      PresentMembers(init);
      assert forall i | 0 <= i < |init| :: rates[i] == init[i];
    }
  }

  /** No rate is dropped exactly when no rate is missing. */
  lemma {:induction false} PresentComplete(rates: seq<Option<real>>)
    ensures |Present(rates)| == |rates| <==> forall i | 0 <= i < |rates| :: rates[i].Some?
  {
    if rates != [] {
      var init := rates[..|rates| - 1];
      PresentComplete(init);
      assert forall i | 0 <= i < |init| :: rates[i] == init[i];
    }
  }

  /** Nothing is present exactly when every rate is missing. */
  lemma {:induction false} PresentEmpty(rates: seq<Option<real>>)
    ensures Present(rates) == [] <==> forall i | 0 <= i < |rates| :: rates[i].None?
  {
    if rates != [] {
      var init := rates[..|rates| - 1];
      PresentEmpty(init);
      assert forall i | 0 <= i < |init| :: rates[i] == init[i];
    }
  }

  lemma {:induction false} PresentConcat(a: seq<Option<real>>, b: seq<Option<real>>)
    ensures Present(a + b) == Present(a) + Present(b)
  {
    if b == [] {
      assert a + b == a;
    } else {
      assert (a + b)[..|a + b| - 1] == a + b[..|b| - 1];
      PresentConcat(a, b[..|b| - 1]);
    }
  }

  /** A value present in a contiguous part of a series is present in the whole. */
  lemma PresentOfSlice(rates: seq<Option<real>>, lo: nat, hi: nat, x: real)
    requires lo <= hi <= |rates| && x in Present(rates[lo..hi])
    ensures x in Present(rates)
  {
    PresentMembers(rates[lo..hi]);
    var k :| 0 <= k < hi - lo && rates[lo..hi][k] == Some(x);
    assert rates[lo + k] == Some(x);
    PresentMembers(rates);
  }

  lemma {:induction false} PresentOfConstant(n: nat, c: real)
    ensures Present(seq(n, _ => Some(c))) == seq(n, _ => c)
  {
    if n > 0 {
      assert seq(n, _ => Some(c))[..n - 1] == seq(n - 1, _ => Some(c));
      PresentOfConstant(n - 1, c);
    }
  }

  lemma RatesConcat(a: seq<Observation>, b: seq<Observation>)
    ensures Rates(a + b) == Rates(a) + Rates(b)
  {
  }

  /** Taking out the row at k takes its rate, if present, out of the present rates. */
  lemma PresentWithout(s: seq<Observation>, k: nat)
    requires k < |s|
    ensures multiset(Present(Rates(s)))
         == multiset(Present(Rates(s[..k] + s[k + 1..]))) + multiset(Present(Rates([s[k]])))
  {
    var left, right := s[..k], s[k + 1..];
    assert s == left + [s[k]] + right;
    RatesConcat(left + [s[k]], right);
    RatesConcat(left, [s[k]]);
    PresentConcat(Rates(left) + Rates([s[k]]), Rates(right));
    PresentConcat(Rates(left), Rates([s[k]]));
    RatesConcat(left, right);
    PresentConcat(Rates(left), Rates(right));
  }

  /**
   * Reordering the rows reorders the present rates: the same values occur
   * the same number of times.
   */
  lemma {:induction false} PresentOfPermutation(s1: seq<Observation>, s2: seq<Observation>)
    requires multiset(s1) == multiset(s2)
    ensures multiset(Present(Rates(s1))) == multiset(Present(Rates(s2)))
  {
    if s1 == [] {
      assert |s2| == |multiset(s2)| == 0;
      assert Rates(s2) == [];
    } else {
      var n := |s1| - 1;
      var k := MatchLast(s1, s2);
      var init, rest := s1[..n], s2[..k] + s2[k + 1..];
      PresentOfPermutation(init, rest);
      PresentWithout(s2, k);
      PresentWithout(s1, n);
      assert s1[..n] + s1[n + 1..] == init;
    }
  }

  /**
   * Python's string order, on which the tuple sort of (date, rate) rows
   * decides: lexicographic by code point, a proper prefix first. On
   * "YYYY-MM-DD" keys it is the calendar order.
   */
  predicate DateLe(a: string, b: string)
  {
    a == [] || (b != [] && (a[0] < b[0] || (a[0] == b[0] && DateLe(a[1..], b[1..]))))
  }

  lemma {:induction false} DateLeTotal(a: string, b: string)
    ensures DateLe(a, b) || DateLe(b, a)
  {
    if a != [] && b != [] && a[0] == b[0] {
      DateLeTotal(a[1..], b[1..]);
    }
  }

  lemma {:induction false} DateLeTransitive(a: string, b: string, c: string)
    requires DateLe(a, b) && DateLe(b, c)
    ensures DateLe(a, c)
  {
    if a != [] && a[0] == b[0] && b[0] == c[0] {
      DateLeTransitive(a[1..], b[1..], c[1..]);
    }
  }

  lemma {:induction false} DateLeAntisymmetric(a: string, b: string)
    requires DateLe(a, b) && DateLe(b, a)
    ensures a == b
  {
    if a != [] {
      DateLeAntisymmetric(a[1..], b[1..]);
      assert a == [a[0]] + a[1..] && b == [b[0]] + b[1..];
    }
  }

  lemma {:induction false} DateLeReflexive(a: string)
    ensures DateLe(a, a)
  {
    if a != [] {
      DateLeReflexive(a[1..]);
    }
  }

  predicate SortedByDate(s: seq<Observation>)
  {
    forall i, j | 0 <= i < j < |s| :: DateLe(s[i].date, s[j].date)
  }

  /** The first i rows are in date order. */
  ghost predicate SortedPrefix(s: seq<Observation>, i: nat)
  {
    i <= |s| && forall k, l | 0 <= k < l < i :: DateLe(s[k].date, s[l].date)
  }

  /**
   * Row j is being moved down into the sorted rows before it: rows 0..j-1
   * and rows j..i are each in order, and every row before j precedes every
   * row after j.
   */
  ghost predicate Sinking(s: seq<Observation>, j: nat, i: nat)
  {
    && j <= i < |s|
    && (forall k, l | 0 <= k < l < j :: DateLe(s[k].date, s[l].date))
    && (forall k, l | j <= k < l <= i :: DateLe(s[k].date, s[l].date))
    && (forall k, l | 0 <= k < j < l <= i :: DateLe(s[k].date, s[l].date))
  }

  lemma SinkingStart(s: seq<Observation>, i: nat)
    requires SortedPrefix(s, i) && i < |s|
    ensures Sinking(s, i, i)
  {
  }

  lemma SinkingStep(s: seq<Observation>, j: nat, i: nat)
    requires Sinking(s, j, i) && 0 < j && !DateLe(s[j - 1].date, s[j].date)
    ensures Sinking(s[j - 1 := s[j]][j := s[j - 1]], j - 1, i)
  {
    DateLeTotal(s[j - 1].date, s[j].date);
  }

  lemma SinkingDone(s: seq<Observation>, j: nat, i: nat)
    requires Sinking(s, j, i) && (j == 0 || DateLe(s[j - 1].date, s[j].date))
    ensures SortedPrefix(s, i + 1)
  {
    forall k, l | 0 <= k < l <= i
      ensures DateLe(s[k].date, s[l].date)
    {
      if k < j - 1 && l == j {
        DateLeTransitive(s[k].date, s[j - 1].date, s[j].date);
      }
    }
  }

  /** Exchanging two neighbouring rows keeps the same rows. */
  lemma SwapKeepsRows(s: seq<Observation>, j: nat)
    requires 0 < j < |s|
    ensures multiset(s[j - 1 := s[j]][j := s[j - 1]]) == multiset(s)
  {
  }

  /**
   * rates.sort() on the fetched rows. The dates are the keys of the
   * provider's JSON object and hence distinct, so the tuple order is the
   * order of the dates; the sort is an insertion sort in place.
   */
  method SortByDate(a: array<Observation>)
    modifies a
    ensures SortedByDate(a[..])
    ensures multiset(a[..]) == multiset(old(a[..]))
  {
    var i := 0;
    while i < a.Length
      invariant 0 <= i <= a.Length
      invariant SortedPrefix(a[..], i)
      invariant multiset(a[..]) == multiset(old(a[..]))
    {
      SinkingStart(a[..], i);
      var j := i;
      while 0 < j && !DateLe(a[j - 1].date, a[j].date)
        invariant Sinking(a[..], j, i)
        invariant multiset(a[..]) == multiset(old(a[..]))
      {
        ghost var rows := a[..];
        SinkingStep(rows, j, i);
        SwapKeepsRows(rows, j);
        a[j - 1], a[j] := a[j], a[j - 1];
        assert a[..] == rows[j - 1 := rows[j]][j := rows[j - 1]];
        j := j - 1;
      }
      SinkingDone(a[..], j, i);
      i := i + 1;
    }
  }

  /**
   * The rows built from the provider's date-to-rate object, sorted and
   * handed on as the series: the same rows, now in date order.
   */
  method SortedSeries(rows: seq<Observation>) returns (series: seq<Observation>)
    ensures SortedByDate(series)
    ensures multiset(series) == multiset(rows)
  {
    var a := new Observation[|rows|](i requires 0 <= i < |rows| => rows[i]);
    assert a[..] == rows;
    SortByDate(a);
    series := a[..];
  }

  /** In a date-ordered series the last row carries the newest date. */
  lemma LatestIsNewest(series: seq<Observation>)
    requires SortedByDate(series) && |series| > 0
    ensures forall i | 0 <= i < |series| :: DateLe(series[i].date, series[|series| - 1].date)
  {
    DateLeReflexive(series[|series| - 1].date);
  }
}
