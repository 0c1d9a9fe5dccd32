/**
 * Linear one-dimensional interpolation over a table of control points, as
 * scipy's interp1d(x, y, kind='linear') evaluates it with its default
 * bounds_error=True: a query outside [x[0], x[last]] raises ValueError, and a
 * query inside uses the segment whose right end is the first knot >= x.
 */
module Interpolation {
  import opened Wrappers
  import opened Numeric

  /** The two ValueError messages interp1d raises for a query outside the table. */
  datatype InterpError = BelowRange | AboveRange

  /** Control points: as many x as y values, at least two, x strictly increasing. */
  predicate ValidTable(xs: seq<real>, ys: seq<real>)
  {
    && |xs| == |ys|
    && 2 <= |xs|
    && forall i, j :: 0 <= i < j < |xs| ==> xs[i] < xs[j]
  }

  predicate NonIncreasing(ys: seq<real>)
  {
    forall i, j :: 0 <= i < j < |ys| ==> ys[j] <= ys[i]
  }

  /** The line through (x0, y0) and (x1, y1), evaluated at x. */
  function Lerp(x0: real, x1: real, y0: real, y1: real, x: real): (y: real)
    requires x0 < x1
    ensures x == x0 ==> y == y0
    ensures x == x1 ==> y == y1
  {
    (y1 - y0) / (x1 - x0) * (x - x0) + y0
  }

  /** Between its two control points, the line stays between their values. */
  lemma LerpBetween(x0: real, x1: real, y0: real, y1: real, x: real)
    requires x0 <= x <= x1 && x0 < x1
    ensures Min(y0, y1) <= Lerp(x0, x1, y0, y1, x) <= Max(y0, y1)
  {
    var t := (x - x0) / (x1 - x0);
    assert 0.0 <= t <= 1.0;
    assert Lerp(x0, x1, y0, y1, x) == y0 + (y1 - y0) * t;
    FractionBetween(y1 - y0, t);
  }

  /** A fraction t in [0, 1] of d lies between 0 and d. */
  lemma FractionBetween(d: real, t: real)
    requires 0.0 <= t <= 1.0
    ensures Min(0.0, d) <= d * t <= Max(0.0, d)
  {
    assert d * t + d * (1.0 - t) == d;
    if 0.0 <= d {
      assert 0.0 <= d * t && 0.0 <= d * (1.0 - t);
    } else {
      assert d * t <= 0.0 && d * (1.0 - t) <= 0.0;
    }
  }

  /** A line through a falling pair of control points never rises. */
  lemma LerpNonIncreasing(x0: real, x1: real, y0: real, y1: real, x: real, x': real)
    requires x0 < x1 && y1 <= y0 && x <= x'
    ensures Lerp(x0, x1, y0, y1, x') <= Lerp(x0, x1, y0, y1, x)
  {
    var slope := (y1 - y0) / (x1 - x0);
    assert slope <= 0.0;
    assert slope * (x' - x) <= 0.0;
    assert slope * (x' - x0) == slope * (x - x0) + slope * (x' - x);
  }

  /** Interpolated value at an x inside the table's domain. */
  function Lookup(xs: seq<real>, ys: seq<real>, x: real): (y: real)
    requires ValidTable(xs, ys)
    requires xs[0] <= x <= xs[|xs| - 1]
    ensures x == xs[0] ==> y == ys[0]
    ensures x == xs[|xs| - 1] ==> y == ys[|ys| - 1]
    decreases |xs|
  {
    if |xs| == 2 || x <= xs[1] then Lerp(xs[0], xs[1], ys[0], ys[1], x)
    else Lookup(xs[1..], ys[1..], x)
  }

  /** The table without its first control point is still a table. */
  lemma TailValid(xs: seq<real>, ys: seq<real>)
    requires ValidTable(xs, ys) && 2 < |xs|
    ensures ValidTable(xs[1..], ys[1..])
    ensures NonIncreasing(ys) ==> NonIncreasing(ys[1..])
  {
  }

  /** The interpolation passes through every control point. */
  lemma {:induction false} LookupAtKnot(xs: seq<real>, ys: seq<real>, i: nat)
    requires ValidTable(xs, ys) && i < |xs|
    ensures xs[0] <= xs[i] <= xs[|xs| - 1]
    ensures Lookup(xs, ys, xs[i]) == ys[i]
    decreases |xs|
  {
    if 0 < i {
      assert xs[0] < xs[i];
    }
    if i < |xs| - 1 {
      assert xs[i] < xs[|xs| - 1];
    }
    if 1 < i {
      assert xs[1] < xs[i];
      TailValid(xs, ys);
      LookupAtKnot(xs[1..], ys[1..], i - 1);
    }
  }

  /**
   * Between two neighbouring control points the interpolation is the line
   * through them. The knot xs[1] is shared by segments 0 and 1; both lines
   * meet there.
   */
  lemma {:induction false} LookupOnSegment(xs: seq<real>, ys: seq<real>, i: nat, x: real)
    requires ValidTable(xs, ys) && i + 1 < |xs| && xs[i] <= x <= xs[i + 1]
    ensures xs[0] <= x <= xs[|xs| - 1]
    ensures Lookup(xs, ys, x) == Lerp(xs[i], xs[i + 1], ys[i], ys[i + 1], x)
    decreases |xs|
  {
    assert xs[0] <= xs[i] && xs[i + 1] <= xs[|xs| - 1];
    if 0 < i {
      assert xs[1] <= xs[i];
      if x == xs[1] {
        assert i == 1;
      } else {
        TailValid(xs, ys);
        LookupOnSegment(xs[1..], ys[1..], i - 1, x);
      }
    }
  }

  /** Interpolated values never leave the range the table's values span. */
  lemma {:induction false} LookupBounded(xs: seq<real>, ys: seq<real>, x: real, lo: real, hi: real)
    requires ValidTable(xs, ys) && xs[0] <= x <= xs[|xs| - 1]
    requires forall k :: 0 <= k < |ys| ==> lo <= ys[k] <= hi
    ensures lo <= Lookup(xs, ys, x) <= hi
    decreases |xs|
  {
    if |xs| == 2 || x <= xs[1] {
      assert xs[0] < xs[1];
      LerpBetween(xs[0], xs[1], ys[0], ys[1], x);
      assert lo <= ys[0] <= hi && lo <= ys[1] <= hi;
    } else {
      TailValid(xs, ys);
      LookupBounded(xs[1..], ys[1..], x, lo, hi);
    }
  }

  /** A table of non-increasing values gives a non-increasing interpolation. */
  lemma {:induction false} LookupNonIncreasing(xs: seq<real>, ys: seq<real>, x: real, x': real)
    requires ValidTable(xs, ys) && NonIncreasing(ys)
    requires xs[0] <= x <= x' <= xs[|xs| - 1]
    ensures Lookup(xs, ys, x') <= Lookup(xs, ys, x)
    decreases |xs|
  {
    assert xs[0] < xs[1] && ys[1] <= ys[0];
    if |xs| == 2 || x' <= xs[1] {
      LerpNonIncreasing(xs[0], xs[1], ys[0], ys[1], x, x');
    } else if x <= xs[1] {
      TailValid(xs, ys);
      LerpNonIncreasing(xs[0], xs[1], ys[0], ys[1], x, xs[1]);
      LookupAtKnot(xs[1..], ys[1..], 0);
      LookupNonIncreasing(xs[1..], ys[1..], xs[1], x');
    } else {
      TailValid(xs, ys);
      LookupNonIncreasing(xs[1..], ys[1..], x, x');
    }
  }

  /** interp1d's call: the interpolated value, or the ValueError it raises out of range. */
  function Interp1d(xs: seq<real>, ys: seq<real>, x: real): (r: Result<real, InterpError>)
    requires ValidTable(xs, ys)
    ensures r.Success? <==> xs[0] <= x <= xs[|xs| - 1]
    ensures r == Failure(BelowRange) <==> x < xs[0]
    ensures r.Success? ==> r.value == Lookup(xs, ys, x)
  {
    if x < xs[0] then Failure(BelowRange)
    else if xs[|xs| - 1] < x then Failure(AboveRange)
    else Success(Lookup(xs, ys, x))
  }
}
