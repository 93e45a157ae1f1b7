/**
 * The two array routines the profile and field resampling rest on: evenly spaced sample
 * points (numpy's linspace) and clamped piecewise-linear interpolation (numpy's interp),
 * both over exact reals.
 */
module Interpolation {

  /** Sample coordinates in strictly increasing order: the input interp is meaningful on. */
  ghost predicate StrictlyIncreasing(xp: seq<real>) {
    forall i, j :: 0 <= i < j < |xp| ==> xp[i] < xp[j]
  }

  /** `v` lies on the closed segment between `a` and `b`, whichever is larger. */
  ghost predicate Between(v: real, a: real, b: real) {
    (a <= v <= b) || (b <= v <= a)
  }

  /** The smallest element of a non-empty sequence. */
  function Min(s: seq<real>): real
    requires |s| > 0
  {
    if |s| == 1 then s[0] else if s[0] <= Min(s[1..]) then s[0] else Min(s[1..])
  }

  /** The largest element of a non-empty sequence. */
  function Max(s: seq<real>): real
    requires |s| > 0
  {
    if |s| == 1 then s[0] else if s[0] >= Max(s[1..]) then s[0] else Max(s[1..])
  }

  lemma {:induction false} MinMaxBound(s: seq<real>, k: nat)
    requires k < |s|
    ensures Min(s) <= s[k] <= Max(s)
  {
    if k > 0 {
      MinMaxBound(s[1..], k - 1);
    }
  }

  /** e / d lies in [0, 1] when 0 <= e <= d and d > 0. */
  lemma UnitFraction(e: real, d: real)
    requires 0.0 <= e <= d && d > 0.0
    ensures 0.0 <= e / d <= 1.0
  {
    assert (e / d) * d == e;
  }

  /** (a / d) * e == (e / d) * a: the slope form and the fraction form of a line agree. */
  lemma SlopeTimesRun(a: real, d: real, e: real)
    requires d != 0.0
    ensures (a / d) * e == (e / d) * a
  {
    var s, t := a / d, e / d;
    assert s * d == a && t * d == e;
    assert (s * e - t * a) * d == s * d * e - t * d * a;
  }

  lemma NonNegativeProduct(x: real, y: real)
    requires x >= 0.0 && y >= 0.0
    ensures x * y >= 0.0
  {
  }

  /** A fraction t in [0, 1] of `a` lies between 0 and `a`. */
  lemma FractionBound(t: real, a: real)
    requires 0.0 <= t <= 1.0
    ensures Between(t * a, 0.0, a)
  {
    if a >= 0.0 {
      NonNegativeProduct(t, a);
      NonNegativeProduct(1.0 - t, a);
      assert (1.0 - t) * a == a - t * a;
    } else {
      NonNegativeProduct(t, -a);
      NonNegativeProduct(1.0 - t, -a);
      assert t * (-a) == -(t * a);
      assert (1.0 - t) * (-a) == t * a - a;
    }
  }

  /**
   * The value at `x` of the line through (x0, y0) and (x1, y1), evaluated as interp does:
   * the segment's slope times the distance from its left end, plus the left value.
   */
  function Lerp(x0: real, y0: real, x1: real, y1: real, x: real): (r: real)
    requires x0 <= x <= x1 && x0 < x1
    ensures Between(r, y0, y1)
    ensures x == x0 ==> r == y0
  {
    SlopeTimesRun(y1 - y0, x1 - x0, x - x0);
    UnitFraction(x - x0, x1 - x0);
    FractionBound((x - x0) / (x1 - x0), y1 - y0);
    (y1 - y0) / (x1 - x0) * (x - x0) + y0
  }

  /**
   * Clamped linear interpolation of the table (xp, fp) at `x`: fp[0] at or left of the first
   * knot, fp[last] at or right of the last, and on a segment the line through its two ends.
   * For strictly increasing xp this is numpy's interp with its default left/right values; the
   * result never leaves the range of fp, whatever xp is.
   */
  function Interp(x: real, xp: seq<real>, fp: seq<real>): (r: real)
    requires 0 < |xp| == |fp|
    ensures Min(fp) <= r <= Max(fp)
    decreases |xp|
  {
    if |xp| == 1 || x <= xp[0] then
      MinMaxBound(fp, 0);
      fp[0]
    else if x < xp[1] then
      MinMaxBound(fp, 0);
      MinMaxBound(fp, 1);
      Lerp(xp[0], fp[0], xp[1], fp[1], x)
    else
      Interp(x, xp[1..], fp[1..])
  }

  /** Left of (or at) the first knot, interp holds the first value. */
  lemma InterpLeftClamp(x: real, xp: seq<real>, fp: seq<real>)
    requires 0 < |xp| == |fp| && x <= xp[0]
    ensures Interp(x, xp, fp) == fp[0]
  {
  }

  /** Right of (or at) the last knot, interp holds the last value: it never extrapolates. */
  lemma {:induction false} InterpRightClamp(x: real, xp: seq<real>, fp: seq<real>)
    requires 0 < |xp| == |fp| && StrictlyIncreasing(xp)
    requires x >= xp[|xp| - 1]
    ensures Interp(x, xp, fp) == fp[|fp| - 1]
  {
    if |xp| > 1 {
      assert xp[0] < xp[1] <= xp[|xp| - 1];
      assert xp[1..][|xp| - 2] == xp[|xp| - 1];
      InterpRightClamp(x, xp[1..], fp[1..]);
    }
  }

  /** At a knot, interp returns the table's own value there. */
  lemma {:induction false} InterpAtKnot(xp: seq<real>, fp: seq<real>, k: nat)
    requires 0 < |xp| == |fp| && StrictlyIncreasing(xp)
    requires k < |xp|
    ensures Interp(xp[k], xp, fp) == fp[k]
  {
    if k > 0 {
      assert xp[0] < xp[1] <= xp[k];
      assert xp[1..][k - 1] == xp[k];
      InterpAtKnot(xp[1..], fp[1..], k - 1);
    }
  }

  /**
   * Reference definition: inside the segment [xp[k], xp[k+1]) the result is the line through
   * that segment's two knots.
   */
  lemma {:induction false} InterpOnSegment(x: real, xp: seq<real>, fp: seq<real>, k: nat)
    requires 0 < |xp| == |fp| && StrictlyIncreasing(xp)
    requires k + 1 < |xp| && xp[k] <= x < xp[k + 1]
    ensures Interp(x, xp, fp) == Lerp(xp[k], fp[k], xp[k + 1], fp[k + 1], x)
  {
    if k > 0 {
      assert xp[0] < xp[1] <= xp[k] <= x;
      assert xp[1..][k - 1] == xp[k] && xp[1..][k] == xp[k + 1];
      InterpOnSegment(x, xp[1..], fp[1..], k - 1);
    } else if x == xp[0] {
      InterpLeftClamp(x, xp, fp);
    }
  }

  /** Between two neighbouring knots, the result lies between their two values. */
  lemma InterpBetweenNeighbours(x: real, xp: seq<real>, fp: seq<real>, k: nat)
    requires 0 < |xp| == |fp| && StrictlyIncreasing(xp)
    requires k + 1 < |xp| && xp[k] <= x <= xp[k + 1]
    ensures Between(Interp(x, xp, fp), fp[k], fp[k + 1])
  {
    if x == xp[k + 1] {
      InterpAtKnot(xp, fp, k + 1);
    } else {
      InterpOnSegment(x, xp, fp, k);
    }
  }

  /** A table whose values are all `c` interpolates to `c` everywhere (for one row, always). */
  lemma {:induction false} InterpConstant(x: real, xp: seq<real>, fp: seq<real>, c: real)
    requires 0 < |xp| == |fp|
    requires forall k :: 0 <= k < |fp| ==> fp[k] == c
    ensures Interp(x, xp, fp) == c
  {
    if |xp| > 1 && x > xp[0] && x >= xp[1] {
      InterpConstant(x, xp[1..], fp[1..], c);
    }
  }

  /** Every element of `s` multiplied by `k`: a column converted to toolkit units. */
  function ScaleAll(s: seq<real>, k: real): (r: seq<real>)
    ensures |r| == |s| && forall i :: 0 <= i < |s| ==> r[i] == s[i] * k
  {
    seq(|s|, i requires 0 <= i < |s| => s[i] * k)
  }

  /** Scaling by a positive unit keeps strictly increasing altitudes strictly increasing. */
  lemma ScaleAllIncreasing(s: seq<real>, k: real)
    requires k > 0.0 && StrictlyIncreasing(s)
    ensures StrictlyIncreasing(ScaleAll(s, k))
  {
    var r := ScaleAll(s, k);
    forall i, j | 0 <= i < j < |r| ensures r[i] < r[j] {
      assert (s[j] - s[i]) * k > 0.0;
    }
  }

  /**
   * `n` evenly spaced points from `start` to `stop`, as numpy's linspace with its endpoint:
   * the step is (stop - start) / (n - 1), and the last point is set to `stop` itself.
   */
  function Linspace(start: real, stop: real, n: nat): (r: seq<real>)
    ensures |r| == n
    ensures n > 0 ==> r[0] == start
    ensures n > 1 ==> r[n - 1] == stop
  {
    if n == 1 then [start]
    else
      var step := (stop - start) / (n - 1) as real;
      seq(n, i requires 0 <= i < n => if i == n - 1 then stop else start + i as real * step)
  }

  /** Every point i of linspace is start + i * step, the last one included. */
  lemma LinspaceUniform(start: real, stop: real, n: nat, i: nat)
    requires 1 < n && i < n
    ensures Linspace(start, stop, n)[i] == start + i as real * ((stop - start) / (n - 1) as real)
  {
    if i == n - 1 {
      var d := (n - 1) as real;
      assert d * ((stop - start) / d) == stop - start;
    }
  }

  /** With start < stop the points are strictly increasing, so they can themselves serve as knots. */
  lemma LinspaceIncreasing(start: real, stop: real, n: nat)
    requires start < stop
    ensures StrictlyIncreasing(Linspace(start, stop, n))
  {
    var r := Linspace(start, stop, n);
    if n > 1 {
      var step := (stop - start) / (n - 1) as real;
      assert step > 0.0;
      forall i, j | 0 <= i < j < n ensures r[i] < r[j] {
        LinspaceUniform(start, stop, n, i);
        LinspaceUniform(start, stop, n, j);
        assert i as real * step < j as real * step;
      }
    }
  }

  /** Cross-multiplication for quotients with positive denominators. */
  lemma QuotientLe(x: real, a: real, y: real, b: real)
    requires a > 0.0 && b > 0.0 && x * b <= y * a
    ensures x / a <= y / b
  {
    var p, q := x / a, y / b;
    assert p * a == x && q * b == y;
    assert p * a * b <= q * b * a;
    assert (p - q) * (a * b) <= 0.0;
  }

  /**
   * The i-th of n points from 0 to h lies inside the i-th of n equal bands of [0, h]:
   * i*h/n <= point <= (i+1)*h/n. The points are not the bands' midpoints.
   */
  lemma LinspaceInsideBand(h: real, n: nat, i: nat)
    requires h > 0.0 && i < n
    ensures i as real * (h / n as real) <= Linspace(0.0, h, n)[i] <= (i + 1) as real * (h / n as real)
  {
    var nr := n as real;
    var ir := i as real;
    assert ir * (h / nr) == (ir * h) / nr;
    assert (ir + 1.0) * (h / nr) == ((ir + 1.0) * h) / nr;
    if n > 1 {
      var d := (n - 1) as real;
      LinspaceUniform(0.0, h, n, i);
      assert Linspace(0.0, h, n)[i] == (ir * h) / d;
      // i/n <= i/(n-1) <= (i+1)/n, all scaled by h.
      assert (ir * h) * d <= (ir * h) * nr;
      QuotientLe(ir * h, nr, ir * h, d);
      assert ir * nr <= (ir + 1.0) * d;
      assert (ir * h) * nr <= ((ir + 1.0) * h) * d;
      QuotientLe(ir * h, d, (ir + 1.0) * h, nr);
    } else {
      assert i == 0 && nr == 1.0;
    }
  }
}
