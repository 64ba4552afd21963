/** The sample statistics the risk estimators rely on, as numpy and pandas compute them by
    default: the sum, the sorted order, the empirical quantile with linear interpolation between
    order statistics (numpy's default "linear" method, type 7), and the mean of the values at or
    below a threshold. Everything is exact arithmetic over the reals. */
module Statistics {
  import opened Series

  function Sum(s: seq<real>): (r: real)
  {
    if s == [] then 0.0 else s[0] + Sum(s[1..])
  }

  lemma {:induction false} SumConcat(a: seq<real>, b: seq<real>)
    ensures Sum(a + b) == Sum(a) + Sum(b)
  {
    if a == [] {
      assert a + b == b;
    } else {
      assert (a + b)[1..] == a[1..] + b;
      SumConcat(a[1..], b);
    }
  }

  /** A sum of n terms, each within [lo, hi], lies within [n * lo, n * hi]. */
  lemma {:induction false} SumBounds(s: seq<real>, lo: real, hi: real)
    requires forall i :: 0 <= i < |s| ==> lo <= s[i] <= hi
    ensures |s| as real * lo <= Sum(s) <= |s| as real * hi
  {
    if s != [] {
      SumBounds(s[1..], lo, hi);
      assert |s| as real * lo == lo + (|s| - 1) as real * lo;
      assert |s| as real * hi == hi + (|s| - 1) as real * hi;
    }
  }

  predicate Sorted(s: seq<real>)
  {
    forall i, j :: 0 <= i < j < |s| ==> s[i] <= s[j]
  }

  /** Insertion of x into an ascending sequence, before the first element not below it. */
  function Insert(x: real, s: seq<real>): (r: seq<real>)
    ensures |r| == |s| + 1
  {
    if s == [] || x <= s[0] then [x] + s else [s[0]] + Insert(x, s[1..])
  }

  lemma {:induction false} InsertPermutes(x: real, s: seq<real>)
    ensures multiset(Insert(x, s)) == multiset(s) + multiset{x}
  {
    if s != [] && x > s[0] {
      InsertPermutes(x, s[1..]);
      assert s == [s[0]] + s[1..];
    }
  }

  /** Putting a value no larger than the head in front of an ascending sequence keeps it ascending. */
  lemma PrependSorted(a: real, t: seq<real>)
    requires Sorted(t)
    requires |t| > 0 ==> a <= t[0]
    ensures Sorted([a] + t)
  {
    var u := [a] + t;
    forall i, j | 0 <= i < j < |u| ensures u[i] <= u[j] {
      if i == 0 {
        assert u[j] == t[j - 1] && t[0] <= t[j - 1];
      } else {
        assert u[i] == t[i - 1] && u[j] == t[j - 1];
      }
    }
  }

  lemma {:induction false} InsertSorted(x: real, s: seq<real>)
    requires Sorted(s)
    ensures Sorted(Insert(x, s))
  {
    if s == [] || x <= s[0] {
      PrependSorted(x, s);
    } else {
      var rest := s[1..];
      InsertSorted(x, rest);
      assert rest != [] ==> s[0] <= rest[0];
      PrependSorted(s[0], Insert(x, rest));
    }
  }

  /** The ascending order of a sample, as np.quantile computes it before interpolating. */
  function Sort(s: seq<real>): (r: seq<real>)
    ensures |r| == |s|
    ensures Sorted(r)
    ensures multiset(r) == multiset(s)
  {
    if s == [] then []
    else
      var t := Sort(s[1..]);
      InsertSorted(s[0], t);
      InsertPermutes(s[0], t);
      assert s == [s[0]] + s[1..];
      Insert(s[0], t)
  }

  function MinOf(s: seq<real>): (m: real)
    requires |s| > 0
    ensures m in s
    ensures forall i :: 0 <= i < |s| ==> m <= s[i]
  {
    if |s| == 1 then s[0]
    else
      var t := MinOf(s[1..]);
      if s[0] <= t then s[0] else t
  }

  function MaxOf(s: seq<real>): (m: real)
    requires |s| > 0
    ensures m in s
    ensures forall i :: 0 <= i < |s| ==> s[i] <= m
  {
    if |s| == 1 then s[0]
    else
      var t := MaxOf(s[1..]);
      if s[0] >= t then s[0] else t
  }

  /** An ascending arrangement of a sample starts at its minimum and ends at its maximum. */
  lemma SortedEndsOf(x: seq<real>, s: seq<real>)
    requires |s| > 0 && Sorted(x) && multiset(x) == multiset(s)
    ensures |x| == |s|
    ensures x[0] == MinOf(s) && x[|x| - 1] == MaxOf(s)
  {
    assert |x| == |multiset(x)| == |multiset(s)| == |s|;
    var least, most := MinOf(s), MaxOf(s);
    assert x[0] in multiset(s) && x[|x| - 1] in multiset(s);
    assert least in multiset(x) && most in multiset(x);
    var i :| 0 <= i < |x| && x[i] == least;
    var j :| 0 <= j < |x| && x[j] == most;
    assert x[0] <= x[i] && x[j] <= x[|x| - 1];
  }

  /** The first and last order statistics are the sample's minimum and maximum. */
  lemma SortedEnds(s: seq<real>)
    requires |s| > 0
    ensures Sort(s)[0] == MinOf(s)
    ensures Sort(s)[|s| - 1] == MaxOf(s)
  {
    SortedEndsOf(Sort(s), s);
  }

  /** Two ascending orders of the same non-empty multiset start with the same value. */
  lemma SortedSameHead(a: seq<real>, b: seq<real>)
    requires Sorted(a) && Sorted(b) && |a| > 0
    requires multiset(a) == multiset(b)
    ensures |b| == |a| && a[0] == b[0]
  {
    assert |a| == |multiset(a)| == |multiset(b)| == |b|;
    assert a[0] in multiset(b) && b[0] in multiset(a);
    var i :| 0 <= i < |b| && b[i] == a[0];
    var j :| 0 <= j < |a| && a[j] == b[0];
    assert b[0] <= b[i] && a[0] <= a[j];
  }

  lemma TailMultiset(a: seq<real>)
    requires |a| > 0
    ensures multiset(a[1..]) == multiset(a) - multiset{a[0]}
  {
    assert a == [a[0]] + a[1..];
  }

  /** Two ascending orders of the same multiset of values are the same sequence. */
  lemma {:induction false} SortedUnique(a: seq<real>, b: seq<real>)
    requires Sorted(a) && Sorted(b)
    requires multiset(a) == multiset(b)
    ensures a == b
  {
    if a == [] {
      assert |b| == |multiset(b)| == 0;
    } else {
      SortedSameHead(a, b);
      TailMultiset(a);
      TailMultiset(b);
      SortedUnique(a[1..], b[1..]);
    }
  }

  /** numpy's linear interpolation step: a fraction f of the way from a to b. */
  function Lerp(a: real, b: real, f: real): (r: real)
  {
    a + f * (b - a)
  }

  /** Moving a fraction f in [0, 1] of the way from a to b stays between a and b. */
  lemma LerpBetween(a: real, b: real, f: real)
    requires a <= b && 0.0 <= f <= 1.0
    ensures a <= Lerp(a, b, f) <= b
  {
    var d := b - a;
    assert 0.0 <= f * d;
    assert 0.0 <= (1.0 - f) * d;
    assert d - f * d == (1.0 - f) * d;
  }

  /** On a rising segment, a larger fraction gives a larger value. */
  lemma LerpMonotone(a: real, b: real, f1: real, f2: real)
    requires a <= b && f1 <= f2
    ensures Lerp(a, b, f1) <= Lerp(a, b, f2)
  {
    var g, d := f2 - f1, b - a;
    assert g * d >= 0.0;
    assert f2 * d == f1 * d + g * d;
  }

  lemma FloorRange(h: real, n: nat)
    requires n > 0 && 0.0 <= h <= (n - 1) as real
    ensures 0 <= h.Floor < n
    ensures 0.0 <= h - h.Floor as real < 1.0
  {
  }

  /** Linear interpolation at the fractional position h of the order statistics x, between
      x[floor h] and x[floor h + 1]; the upper neighbour is clipped to the last index. */
  function Interpolate(x: seq<real>, h: real): real
    requires |x| > 0 && 0.0 <= h <= (|x| - 1) as real
  {
    FloorRange(h, |x|);
    var lo := h.Floor;
    if lo + 1 < |x| then Lerp(x[lo], x[lo + 1], h - lo as real) else x[lo]
  }

  lemma InterpolateBounds(x: seq<real>, h: real)
    requires |x| > 0 && 0.0 <= h <= (|x| - 1) as real
    requires Sorted(x)
    ensures 0 <= h.Floor < |x|
    ensures x[h.Floor] <= Interpolate(x, h)
    ensures h.Floor + 1 < |x| ==> Interpolate(x, h) <= x[h.Floor + 1]
    ensures h.Floor + 1 == |x| ==> Interpolate(x, h) == x[h.Floor]
  {
    FloorRange(h, |x|);
    var lo := h.Floor;
    if lo + 1 < |x| {
      LerpBetween(x[lo], x[lo + 1], h - lo as real);
    }
  }

  /** An interpolated order statistic lies between the first and the last. */
  lemma InterpolateWithinEnds(x: seq<real>, h: real)
    requires |x| > 0 && 0.0 <= h <= (|x| - 1) as real
    requires Sorted(x)
    ensures x[0] <= Interpolate(x, h) <= x[|x| - 1]
  {
    InterpolateBounds(x, h);
    var lo := h.Floor;
    assert x[0] <= x[lo];
    if lo + 1 < |x| {
      assert x[lo + 1] <= x[|x| - 1];
    }
  }

  lemma InterpolateMonotone(x: seq<real>, h1: real, h2: real)
    requires |x| > 0 && 0.0 <= h1 <= h2 <= (|x| - 1) as real
    requires Sorted(x)
    ensures Interpolate(x, h1) <= Interpolate(x, h2)
  {
    InterpolateBounds(x, h1);
    InterpolateBounds(x, h2);
    var lo1, lo2 := h1.Floor, h2.Floor;
    if lo1 == lo2 {
      if lo1 + 1 < |x| {
        LerpMonotone(x[lo1], x[lo1 + 1], h1 - lo1 as real, h2 - lo1 as real);
      }
    } else {
      assert lo1 < lo2;
      assert x[lo1 + 1] <= x[lo2];
    }
  }

  /** The fractional order-statistic position (n - 1) p of the p-quantile. */
  function Position(n: nat, p: real): (h: real)
    requires n > 0 && 0.0 <= p <= 1.0
    ensures 0.0 <= h <= (n - 1) as real
  {
    Fraction((n - 1) as real, p);
    (n - 1) as real * p
  }

  /** A fraction p in [0, 1] of a non-negative m lies within [0, m]. */
  lemma Fraction(m: real, p: real)
    requires m >= 0.0 && 0.0 <= p <= 1.0
    ensures 0.0 <= m * p <= m
  {
    var q := 1.0 - p;
    assert m * p >= 0.0;
    assert m * q >= 0.0;
    assert m == m * p + m * q;
  }

  lemma PositionMonotone(n: nat, p1: real, p2: real)
    requires n > 0 && 0.0 <= p1 <= p2 <= 1.0
    ensures Position(n, p1) <= Position(n, p2)
  {
    ScaleMonotone((n - 1) as real, p1, p2);
  }

  lemma ScaleMonotone(m: real, p1: real, p2: real)
    requires m >= 0.0 && p1 <= p2
    ensures m * p1 <= m * p2
  {
    var g := p2 - p1;
    assert m * g >= 0.0;
    assert m * p2 == m * p1 + m * g;
  }

  /** numpy's default empirical p-quantile (linear interpolation between order statistics). */
  function Quantile(s: seq<real>, p: real): (q: real)
    requires |s| > 0 && 0.0 <= p <= 1.0
    ensures MinOf(s) <= q <= MaxOf(s)
  {
    SortedEnds(s);
    InterpolateWithinEnds(Sort(s), Position(|s|, p));
    Interpolate(Sort(s), Position(|s|, p))
  }

  /** A higher probability never gives a lower quantile. */
  lemma QuantileMonotone(s: seq<real>, p1: real, p2: real)
    requires |s| > 0 && 0.0 <= p1 <= p2 <= 1.0
    ensures Quantile(s, p1) <= Quantile(s, p2)
  {
    PositionMonotone(|s|, p1, p2);
    InterpolateMonotone(Sort(s), Position(|s|, p1), Position(|s|, p2));
  }

  /** The 0-quantile is the minimum and the 1-quantile the maximum. */
  lemma QuantileEndpoints(s: seq<real>)
    requires |s| > 0
    ensures Quantile(s, 0.0) == MinOf(s)
    ensures Quantile(s, 1.0) == MaxOf(s)
  {
    SortedEnds(s);
    InterpolateBounds(Sort(s), Position(|s|, 0.0));
    InterpolateBounds(Sort(s), Position(|s|, 1.0));
  }

  /** The quantile depends only on the values of the sample, not on their order. */
  lemma QuantileOrderFree(s: seq<real>, t: seq<real>, p: real)
    requires |s| > 0 && 0.0 <= p <= 1.0
    requires multiset(s) == multiset(t)
    ensures |t| == |s|
    ensures Quantile(s, p) == Quantile(t, p)
  {
    assert |multiset(s)| == |multiset(t)|;
    SortedUnique(Sort(s), Sort(t));
  }

  /** The values of s at or below v, in their original order (a boolean-mask selection). */
  function Below(s: seq<real>, v: real): (r: seq<real>)
    ensures |r| <= |s|
    ensures forall i :: 0 <= i < |r| ==> r[i] in s && r[i] <= v
    ensures forall x :: multiset(r)[x] == if x <= v then multiset(s)[x] else 0
  {
    if s == [] then []
    else
      assert s == [s[0]] + s[1..];
      if s[0] <= v then [s[0]] + Below(s[1..], v) else Below(s[1..], v)
  }

  function Mean(s: seq<real>): (r: real)
    requires |s| > 0
  {
    Sum(s) / |s| as real
  }

  /** The mean of values that all lie within [lo, hi] lies within [lo, hi]. */
  lemma MeanBounds(s: seq<real>, lo: real, hi: real)
    requires |s| > 0
    requires forall i :: 0 <= i < |s| ==> lo <= s[i] <= hi
    ensures lo <= Mean(s) <= hi
  {
    SumBounds(s, lo, hi);
    var n := |s| as real;
    assert Sum(s) / n * n == Sum(s);
  }

  /** The mean of the sample values at or below v; pandas yields NaN when there are none. */
  function TailMean(s: seq<real>, v: real): (r: Result<real>)
    ensures r.Ok? <==> exists i :: 0 <= i < |s| && s[i] <= v
    ensures r.Err? ==> r.failure == EmptyTail
    ensures r.Ok? ==> MinOf(s) <= r.value <= v
  {
    var tail := Below(s, v);
    if tail == [] then
      assert forall i :: 0 <= i < |s| && s[i] <= v ==> multiset(tail)[s[i]] > 0;
      Err(EmptyTail)
    else
      MeanBounds(tail, MinOf(s), v);
      Ok(Mean(tail))
  }

  /** The value-at-risk and the expected shortfall (conditional VaR) of a sample, on the
      sample's own (log-return) scale. */
  datatype Risk = Risk(valueAtRisk: real, shortfall: real)

  /** The historical and the Monte Carlo estimators share this step: the p-quantile of the
      sample, then the mean of the sample values at or below it. */
  function VarCvar(sample: seq<real>, p: real): (r: Result<Risk>)
    ensures r.Ok? <==> |sample| > 0 && 0.0 <= p <= 1.0
    ensures !(0.0 <= p <= 1.0) ==> r == Err(ProbabilityOutOfRange)
    ensures 0.0 <= p <= 1.0 && |sample| == 0 ==> r == Err(EmptySample)
    ensures r.Ok? ==> r.value.valueAtRisk == Quantile(sample, p)
    ensures r.Ok? ==> TailMean(sample, r.value.valueAtRisk) == Ok(r.value.shortfall)
    ensures r.Ok? ==> MinOf(sample) <= r.value.shortfall <= r.value.valueAtRisk <= MaxOf(sample)
  {
    if !(0.0 <= p <= 1.0) then Err(ProbabilityOutOfRange)
    else if |sample| == 0 then Err(EmptySample)
    else
      var q := Quantile(sample, p);
      var tail := TailMean(sample, q);
      assert tail.Ok? by {
        var m := MinOf(sample);
        var i :| 0 <= i < |sample| && sample[i] == m;
        assert sample[i] <= q;
      }
      Ok(Risk(q, tail.value))
  }
}
