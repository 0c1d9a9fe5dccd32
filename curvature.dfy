/**
 * The curve computation of the game-controller bridge: from the deadzoned
 * steering stick and the two triggers it derives a clamped curve radius and a
 * low-pass filtered curvature, keeping the filter's previous output between
 * ticks.
 *
 * All arithmetic is over real numbers. At steering == 0 the source divides a
 * positive float by 0.0, which numpy evaluates to +inf; the model takes that
 * path explicitly: the curvature 1/inf is 0 and the clamp turns +inf into the
 * upper radius limit.
 */
module Curvature {
  import opened Wrappers
  import opened Numeric
  import opened Interpolation
  import Controller

  /** The damping-to-maximum-radius table: more damping, tighter maximum radius. */
  const RadiusTableX: seq<real> := [0.0, 0.5, 1.0]
  const RadiusTableY: seq<real> := [190.0, 60.0, 10.0]

  /** Bound of the returned radius, in both directions. */
  const RadiusLimit: real := 100000.0

  /** Filter coefficient with the filter trigger released, and fully pressed. */
  const Pt1Min: real := 1.0 / 3.0
  const Pt1Max: real := 1.0 / 60.0

  /** Radius (clamped) and curvature, as one tick returns them. */
  datatype CurveValues = CurveValues(radius: real, curvature: real)

  /** A trigger in [-1, 1] as a ratio in [0, 1]. */
  function Normalise(trigger: real): (ratio: real)
    ensures -1.0 <= trigger <= 1.0 <==> 0.0 <= ratio <= 1.0
    ensures trigger == -1.0 ==> ratio == 0.0
    ensures trigger == 1.0 ==> ratio == 1.0
  {
    (trigger + 1.0) / 2.0
  }

  lemma RadiusTableValid()
    ensures ValidTable(RadiusTableX, RadiusTableY)
    ensures NonIncreasing(RadiusTableY)
  {
  }

  /** The maximum radius for a damping ratio; fails outside [0, 1] as interp1d does. */
  function MaxRadius(damping: real): (r: Result<real, InterpError>)
    ensures r.Success? <==> 0.0 <= damping <= 1.0
    ensures r.Success? ==> 10.0 <= r.value <= 190.0
  {
    RadiusTableValid();
    var r := Interp1d(RadiusTableX, RadiusTableY, damping);
    if r.Success? then
      LookupBounded(RadiusTableX, RadiusTableY, damping, 10.0, 190.0);
      r
    else
      r
  }

  /**
   * The maximum radius in closed form: the line from 190 down to 60 on the
   * first half of the damping range, from 60 down to 10 on the second.
   */
  lemma MaxRadiusClosedForm(d: real)
    ensures 0.0 <= d <= 0.5 ==> MaxRadius(d) == Success(190.0 - 260.0 * d)
    ensures 0.5 <= d <= 1.0 ==> MaxRadius(d) == Success(110.0 - 100.0 * d)
  {
    RadiusTableValid();
    if 0.0 <= d <= 0.5 {
      LookupOnSegment(RadiusTableX, RadiusTableY, 0, d);
    }
    if 0.5 <= d <= 1.0 {
      LookupOnSegment(RadiusTableX, RadiusTableY, 1, d);
    }
  }

  /** The table is met exactly at its control points and linearly in between. */
  lemma MaxRadiusAtKnots()
    ensures MaxRadius(0.0) == Success(190.0)
    ensures MaxRadius(0.5) == Success(60.0)
    ensures MaxRadius(1.0) == Success(10.0)
    ensures MaxRadius(0.25) == Success(125.0)
  {
    RadiusTableValid();
    LookupAtKnot(RadiusTableX, RadiusTableY, 0);
    LookupAtKnot(RadiusTableX, RadiusTableY, 1);
    LookupAtKnot(RadiusTableX, RadiusTableY, 2);
  }

  /** More damping never gives a larger maximum radius. */
  lemma MaxRadiusNonIncreasing(d: real, d': real)
    requires 0.0 <= d <= d' <= 1.0
    ensures MaxRadius(d').value <= MaxRadius(d).value
  {
    RadiusTableValid();
    LookupNonIncreasing(RadiusTableX, RadiusTableY, d, d');
  }

  /** A radius bounded to [-RadiusLimit, RadiusLimit]. */
  function ClampRadius(radius: real): (c: real)
    ensures -RadiusLimit <= c <= RadiusLimit
    ensures -RadiusLimit <= radius <= RadiusLimit ==> c == radius
  {
    if radius < -RadiusLimit then -RadiusLimit
    else if RadiusLimit < radius then RadiusLimit
    else radius
  }

  /** The clamp picks the point of the allowed interval nearest to the radius. */
  lemma ClampIsNearest(radius: real, y: real)
    requires -RadiusLimit <= y <= RadiusLimit
    ensures Abs(ClampRadius(radius) - radius) <= Abs(y - radius)
  {
  }

  /**
   * Radius and curvature before filtering. The curvature is the reciprocal of
   * the radius BEFORE the clamp; the radius is the clamped one.
   */
  function Unfiltered(maxRadius: real, steering: real): (g: CurveValues)
    requires 0.0 < maxRadius
    ensures -RadiusLimit <= g.radius <= RadiusLimit
    ensures steering == 0.0 ==> g == CurveValues(RadiusLimit, 0.0)
  {
    if steering == 0.0 then CurveValues(RadiusLimit, 0.0)
    else
      var raw := maxRadius * 1.0 / steering;
      CurveValues(ClampRadius(raw), 1.0 / raw)
  }

  /**
   * For nonzero steering the curvature is steering / max radius, the
   * reciprocal of the unclamped radius; where the clamp does not act it is
   * also the reciprocal of the returned radius.
   */
  lemma UnfilteredReciprocal(maxRadius: real, steering: real)
    requires 0.0 < maxRadius && steering != 0.0
    ensures Unfiltered(maxRadius, steering).curvature == steering / maxRadius
    ensures Abs(maxRadius / steering) <= RadiusLimit ==>
              Unfiltered(maxRadius, steering).radius == maxRadius / steering
              && Unfiltered(maxRadius, steering).radius * Unfiltered(maxRadius, steering).curvature == 1.0
  {
    var raw := maxRadius * 1.0 / steering;
    assert raw * steering == maxRadius;
    assert raw != 0.0;
    assert (1.0 / raw) * maxRadius == (1.0 / raw) * (raw * steering);
    assert (1.0 / raw) * maxRadius == steering;
  }

  /** The filter coefficient for a filter ratio in [0, 1]. */
  function Alpha(filter: real): (a: real)
    ensures filter == 0.0 ==> a == Pt1Min
    ensures filter == 1.0 ==> a == Pt1Max
    ensures 0.0 <= filter <= 1.0 ==> Pt1Max <= a <= Pt1Min
  {
    (Pt1Max - Pt1Min) * filter + Pt1Min
  }

  /** Pressing the filter trigger further never speeds the filter up. */
  lemma AlphaNonIncreasing(f: real, f': real)
    requires f <= f'
    ensures Alpha(f') <= Alpha(f)
  {
    assert (Pt1Max - Pt1Min) * (f' - f) <= 0.0;
  }

  /** One first-order low-pass step from last toward c. */
  function Pt1(alpha: real, c: real, last: real): real
  {
    alpha * c + (1.0 - alpha) * last
  }

  /** A filter step shrinks the distance to the target by the factor (1 - alpha). */
  lemma Pt1Contracts(alpha: real, c: real, last: real)
    ensures Pt1(alpha, c, last) - c == (1.0 - alpha) * (last - c)
  {
    assert alpha * c + (1.0 - alpha) * last - c == (1.0 - alpha) * last - (1.0 - alpha) * c;
  }

  /** For alpha in [0, 1] a filter step lands between the previous output and the target. */
  lemma Pt1Between(alpha: real, c: real, last: real)
    requires 0.0 <= alpha <= 1.0
    ensures Min(last, c) <= Pt1(alpha, c, last) <= Max(last, c)
  {
    FractionBetween(c - last, alpha);
    assert Pt1(alpha, c, last) == last + (c - last) * alpha;
  }

  /**
   * One call of the curve computation, given the filter's previous output:
   * the clamped radius and the filtered curvature, which is also the filter's
   * next state; or the interpolation error for a damping trigger outside
   * [-1, 1], in which case the filter state is not touched.
   */
  function Tick(steering: real, triggerRight: real, triggerLeft: real, last: real): (r: Result<CurveValues, InterpError>)
    ensures r.Success? <==> -1.0 <= triggerRight <= 1.0
    ensures r.Success? ==> -RadiusLimit <= r.value.radius <= RadiusLimit
  {
    match MaxRadius(Normalise(triggerRight))
    case Failure(e) => Failure(e)
    case Success(maxRadius) =>
      var g := Unfiltered(maxRadius, steering);
      Success(CurveValues(g.radius, Pt1(Alpha(Normalise(triggerLeft)), g.curvature, last)))
  }

  /**
   * For triggers in range, the filtered curvature lies between the previous
   * filter output and this tick's unfiltered curvature.
   */
  lemma TickFilteredBetween(steering: real, triggerRight: real, triggerLeft: real, last: real)
    requires -1.0 <= triggerRight <= 1.0 && -1.0 <= triggerLeft <= 1.0
    ensures var c := Unfiltered(MaxRadius(Normalise(triggerRight)).value, steering).curvature;
            Min(last, c) <= Tick(steering, triggerRight, triggerLeft, last).value.curvature <= Max(last, c)
  {
    var c := Unfiltered(MaxRadius(Normalise(triggerRight)).value, steering).curvature;
    Pt1Between(Alpha(Normalise(triggerLeft)), c, last);
  }

  /** The filter state after a tick: the filtered curvature, or unchanged on error. */
  function NextLast(steering: real, triggerRight: real, triggerLeft: real, last: real): (r: real)
    ensures !(-1.0 <= triggerRight <= 1.0) ==> r == last
  {
    var r := Tick(steering, triggerRight, triggerLeft, last);
    if r.Success? then r.value.curvature else last
  }

  /** Zero steering returns the radius limit and pulls the filter toward curvature 0. */
  lemma TickZeroSteering(triggerRight: real, triggerLeft: real, last: real)
    requires -1.0 <= triggerRight <= 1.0
    ensures Tick(0.0, triggerRight, triggerLeft, last)
         == Success(CurveValues(RadiusLimit, (1.0 - Alpha(Normalise(triggerLeft))) * last))
  {
  }

  /** A maximum radius in [10, 190] over a steering of magnitude in [0.05, 1] lies in [10, 3800] in magnitude. */
  lemma RadiusMagnitude(maxRadius: real, s: real)
    requires 10.0 <= maxRadius <= 190.0 && 0.05 <= Abs(s) <= 1.0
    ensures 10.0 <= Abs(maxRadius / s) <= 3800.0
  {
    if 0.0 < s {
      QuotientBounds(maxRadius, s, 10.0, 3800.0);
    } else {
      QuotientBounds(maxRadius, -s, 10.0, 3800.0);
      assert maxRadius / s == -(maxRadius / -s);
    }
  }

  /**
   * A steering value that has passed the stick deadzone is never clamped: the
   * radius lies between 10 and 3800 in magnitude and is the exact reciprocal
   * of the unfiltered curvature. The clamp only acts at zero steering.
   */
  lemma DeadzonedSteeringNotClamped(v: real, maxRadius: real)
    requires -1.0 <= v <= 1.0 && 10.0 <= maxRadius <= 190.0
    requires Controller.ApplyDeadzone(v, Controller.StickDeadzone) != 0.0
    ensures var s := Controller.ApplyDeadzone(v, Controller.StickDeadzone);
            var g := Unfiltered(maxRadius, s);
            && 10.0 <= Abs(g.radius) <= 3800.0
            && g.radius == maxRadius / s
            && g.radius * g.curvature == 1.0
  {
    var s := Controller.ApplyDeadzone(v, Controller.StickDeadzone);
    assert s == v && 0.05 <= Abs(s) <= 1.0;
    RadiusMagnitude(maxRadius, s);
    UnfilteredReciprocal(maxRadius, s);
  }

  /**
   * The radius and curvature can disagree: a steering of 1/100000 at full
   * damping has an unclamped radius of 1000000, returned as 100000, while the
   * curvature is still 1/1000000.
   */
  lemma ClampedRadiusKeepsUnclampedCurvature()
    ensures Unfiltered(10.0, 0.00001) == CurveValues(RadiusLimit, 0.000001)
    ensures Unfiltered(10.0, 0.00001).radius * Unfiltered(10.0, 0.00001).curvature != 1.0
  {
  }

  /** For steering in [-1, 1] the unfiltered curvature lies in [-1/10, 1/10]. */
  lemma UnfilteredCurvatureBound(maxRadius: real, steering: real)
    requires 10.0 <= maxRadius && -1.0 <= steering <= 1.0
    ensures -0.1 <= Unfiltered(maxRadius, steering).curvature <= 0.1
  {
    if steering != 0.0 {
      UnfilteredReciprocal(maxRadius, steering);
      QuotientBounds(steering, maxRadius, -0.1, 0.1);
    }
  }

  /** A filter state within [-1/10, 1/10] stays there for inputs in range. */
  lemma TickKeepsCurvatureBound(steering: real, triggerRight: real, triggerLeft: real, last: real)
    requires -1.0 <= steering <= 1.0 && -1.0 <= triggerRight <= 1.0 && -1.0 <= triggerLeft <= 1.0
    requires -0.1 <= last <= 0.1
    ensures -0.1 <= NextLast(steering, triggerRight, triggerLeft, last) <= 0.1
  {
    UnfilteredCurvatureBound(MaxRadius(Normalise(triggerRight)).value, steering);
    TickFilteredBetween(steering, triggerRight, triggerLeft, last);
  }

  /** Steering 0.5, damping trigger pressed, filter trigger released, from rest. */
  lemma ScenarioHalfSteeringFullDamping()
    ensures MaxRadius(Normalise(1.0)) == Success(10.0)
    ensures Unfiltered(10.0, 0.5) == CurveValues(20.0, 0.05)
    ensures Alpha(Normalise(-1.0)) == 1.0 / 3.0
    ensures Tick(0.5, 1.0, -1.0, 0.0) == Success(CurveValues(20.0, 1.0 / 60.0))
  {
    MaxRadiusAtKnots();
  }

  /** Steering -0.2, damping trigger released, filter trigger pressed. */
  lemma ScenarioSmallLeftSteering(last: real)
    ensures MaxRadius(Normalise(-1.0)) == Success(190.0)
    ensures Unfiltered(190.0, -0.2) == CurveValues(-950.0, -1.0 / 950.0)
    ensures Alpha(Normalise(1.0)) == 1.0 / 60.0
    ensures Tick(-0.2, -1.0, 1.0, last)
         == Success(CurveValues(-950.0, (1.0 / 60.0) * (-1.0 / 950.0) + (59.0 / 60.0) * last))
  {
    MaxRadiusAtKnots();
  }

  /** The filter state after n steps with constant target c and coefficient alpha. */
  function Iterate(alpha: real, c: real, l0: real, n: nat): real
    decreases n
  {
    if n == 0 then l0 else Pt1(alpha, c, Iterate(alpha, c, l0, n - 1))
  }

  /** One filter step from c + p·(l0 - c) lands at c + (1 - alpha)·p·(l0 - c). */
  lemma ClosedFormStep(alpha: real, c: real, l0: real, prev: real, p: real, p': real)
    requires prev == c + p * (l0 - c) && p' == (1.0 - alpha) * p
    ensures Pt1(alpha, c, prev) == c + p' * (l0 - c)
  {
    Pt1Contracts(alpha, c, prev);
    assert (1.0 - alpha) * (p * (l0 - c)) == ((1.0 - alpha) * p) * (l0 - c);
  }

  /** Closed form: the distance to the target shrinks by (1 - alpha) per step. */
  lemma {:induction false} IterateClosedForm(alpha: real, c: real, l0: real, n: nat)
    ensures Iterate(alpha, c, l0, n) == c + Pow(1.0 - alpha, n) * (l0 - c)
    decreases n
  {
    if n > 0 {
      IterateClosedForm(alpha, c, l0, n - 1);
      var p := Pow(1.0 - alpha, n - 1);
      assert Pow(1.0 - alpha, n) == (1.0 - alpha) * p;
      ClosedFormStep(alpha, c, l0, Iterate(alpha, c, l0, n - 1), p, Pow(1.0 - alpha, n));
    }
  }

  /** Scaling a distance by factors p' <= p <= 1 keeps the order of the results. */
  lemma ContractionBound(p: real, p': real, d: real)
    requires 0.0 <= p' <= p <= 1.0
    ensures Abs(p' * d) <= Abs(p * d) <= Abs(d)
  {
  }

  /** For alpha in [0, 1] the filter never moves away from a constant target. */
  lemma IterateConverges(alpha: real, c: real, l0: real, n: nat)
    requires 0.0 <= alpha <= 1.0
    ensures Abs(Iterate(alpha, c, l0, n + 1) - c) <= Abs(Iterate(alpha, c, l0, n) - c)
    ensures Abs(Iterate(alpha, c, l0, n) - c) <= Abs(l0 - c)
  {
    var p, p' := Pow(1.0 - alpha, n), Pow(1.0 - alpha, n + 1);
    IterateClosedForm(alpha, c, l0, n);
    IterateClosedForm(alpha, c, l0, n + 1);
    PowUnit(1.0 - alpha, n);
    PowUnit(1.0 - alpha, n + 1);
    DistanceShrinks(Iterate(alpha, c, l0, n), Iterate(alpha, c, l0, n + 1), c, l0, p, p');
  }

  lemma DistanceShrinks(e: real, e': real, c: real, l0: real, p: real, p': real)
    requires e - c == p * (l0 - c) && e' - c == p' * (l0 - c)
    requires 0.0 <= p' <= p <= 1.0
    ensures Abs(e' - c) <= Abs(e - c) <= Abs(l0 - c)
  {
    ContractionBound(p, p', l0 - c);
  }

  /** With the filter trigger released (alpha 1/3), ten ticks leave (2/3)^10 of the distance. */
  lemma IterateTenReleased(c: real, l0: real)
    ensures Iterate(1.0 / 3.0, c, l0, 10) == c + (1024.0 / 59049.0) * (l0 - c)
  {
    IterateClosedForm(1.0 / 3.0, c, l0, 10);
    var b := 1.0 - 1.0 / 3.0;
    assert Pow(b, 2) == 4.0 / 9.0;
    assert Pow(b, 4) == 16.0 / 81.0 by {
      assert Pow(b, 4) == b * (b * Pow(b, 2));
    }
    assert Pow(b, 6) == 64.0 / 729.0 by {
      assert Pow(b, 6) == b * (b * Pow(b, 4));
    }
    assert Pow(b, 8) == 256.0 / 6561.0 by {
      assert Pow(b, 8) == b * (b * Pow(b, 6));
    }
    assert Pow(b, 10) == 1024.0 / 59049.0 by {
      assert Pow(b, 10) == b * (b * Pow(b, 8));
    }
  }

  /**
   * The curve computation with its filter state. The source keeps the state
   * in the module-level variable curvature_lastvalue, initially 0.0.
   */
  class CurvatureEngine {
    var lastValue: real

    constructor ()
      ensures lastValue == 0.0
    {
      lastValue := 0.0;
    }

    /**
     * One tick: returns the clamped radius and the filtered curvature and
     * stores the latter as the new filter state. A damping trigger outside
     * [-1, 1] fails in the interpolation, before the state is written.
     */
    method CalcCurveValues(leftX: real, triggerRight: real, triggerLeft: real)
      returns (r: Result<CurveValues, InterpError>)
      modifies this
      ensures r == Tick(leftX, triggerRight, triggerLeft, old(lastValue))
      ensures lastValue == NextLast(leftX, triggerRight, triggerLeft, old(lastValue))
    {
      var steering := leftX;
      var damping := (triggerRight + 1.0) / 2.0;
      var filter := (triggerLeft + 1.0) / 2.0;
      var interpolation := MaxRadius(damping);
      if interpolation.Failure? {
        return Failure(interpolation.error);
      }
      var maxRadius := interpolation.value;
      assert damping == Normalise(triggerRight) && filter == Normalise(triggerLeft);
      ghost var g := Unfiltered(maxRadius, steering);
      var curveRadius: real, curvature: real;
      if steering == 0.0 {
        // maxRadius / 0.0 is +inf: its reciprocal is 0 and the clamp's upper branch applies
        curveRadius := RadiusLimit;
        curvature := 0.0;
      } else {
        curveRadius := maxRadius * 1.0 / steering;
        curvature := 1.0 / curveRadius;
        ghost var raw := curveRadius;
        assert curvature == g.curvature;
        if curveRadius < -RadiusLimit {
          curveRadius := -RadiusLimit;
        } else if curveRadius > RadiusLimit {
          curveRadius := RadiusLimit;
        }
        assert curveRadius == ClampRadius(raw);
      }
      assert curveRadius == g.radius && curvature == g.curvature;
      var alpha := (Pt1Max - Pt1Min) * filter + Pt1Min;
      assert alpha == Alpha(Normalise(triggerLeft));
      assert Pt1(alpha, curvature, lastValue) == alpha * curvature + (1.0 - alpha) * lastValue;
      assert Tick(leftX, triggerRight, triggerLeft, lastValue)
          == Success(CurveValues(curveRadius, Pt1(alpha, curvature, lastValue)));
      curvature := alpha * curvature + (1.0 - alpha) * lastValue;
      lastValue := curvature;
      r := Success(CurveValues(curveRadius, curvature));
      assert Tick(leftX, triggerRight, triggerLeft, old(lastValue)) == r;
    }
  }

  /**
   * The main loop's call of the curve computation, held at constant inputs
   * for n ticks: the filter state approaches the unfiltered curvature by the
   * closed form of the PT1 recursion.
   */
  method RunHeld(engine: CurvatureEngine, steering: real, triggerRight: real, triggerLeft: real, n: nat)
    requires -1.0 <= triggerRight <= 1.0
    modifies engine
    ensures var c := Unfiltered(MaxRadius(Normalise(triggerRight)).value, steering).curvature;
            engine.lastValue == c + Pow(1.0 - Alpha(Normalise(triggerLeft)), n) * (old(engine.lastValue) - c)
  {
    ghost var c := Unfiltered(MaxRadius(Normalise(triggerRight)).value, steering).curvature;
    ghost var alpha := Alpha(Normalise(triggerLeft));
    ghost var l0 := engine.lastValue;
    var i := 0;
    while i < n
      invariant 0 <= i <= n
      invariant engine.lastValue == Iterate(alpha, c, l0, i)
    {
      var _ := engine.CalcCurveValues(steering, triggerRight, triggerLeft);
      i := i + 1;
    }
    IterateClosedForm(alpha, c, l0, n);
  }
}
