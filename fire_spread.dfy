/** The direction-of-spread estimate of backend/FireSpreadEstimator.py: the
    terrain's upslope direction and the wind vector are added as two
    vectors (slope strength tan(slope), wind strength its speed), the sum's
    angle is turned into a compass bearing, and the bearing is named as one
    of eight Arabic compass points. */
module FireSpread {
  import opened Numeric

  // ---------------------------------------------------------------------------
  // Angles
  // ---------------------------------------------------------------------------

  /** Python's float `x % 360.0`: the remainder of the floored division. */
  function Mod360(x: real): (r: real)
    ensures 0.0 <= r < 360.0
  {
    x - 360.0 * ((x / 360.0).Floor as real)
  }

  /** Whole turns do not change the floored remainder. */
  lemma Mod360Periodic(x: real, k: int)
    ensures Mod360(x + 360.0 * (k as real)) == Mod360(x)
  {
    var q := x / 360.0;
    assert (x + 360.0 * (k as real)) / 360.0 == q + (k as real);
    assert (q + (k as real)).Floor == q.Floor + k;
  }

  /** An angle already in [0, 360) is its own remainder. */
  lemma Mod360Identity(x: real)
    requires 0.0 <= x < 360.0
    ensures Mod360(x) == x
  {
    assert (x / 360.0).Floor == 0;
  }

  /** `_norm_deg`: an angle in degrees brought into [0, 360). */
  function NormDeg(d: real): (r: real)
    ensures 0.0 <= r < 360.0
  {
    Mod360(Mod360(d) + 360.0)
  }

  /** The extra `+ 360 ... % 360` changes nothing: normalising is the floored
      remainder. */
  lemma NormDegIsMod360(d: real)
    ensures NormDeg(d) == Mod360(d)
  {
    Mod360Periodic(Mod360(d), 1);
    Mod360Identity(Mod360(d));
  }

  /** Normalising is the identity on [0, 360), idempotent, and blind to whole
      turns. */
  lemma NormDegLaws(d: real, k: int)
    ensures 0.0 <= d < 360.0 ==> NormDeg(d) == d
    ensures NormDeg(NormDeg(d)) == NormDeg(d)
    ensures NormDeg(d + 360.0 * (k as real)) == NormDeg(d)
  {
    NormDegIsMod360(d);
    NormDegIsMod360(NormDeg(d));
    NormDegIsMod360(d + 360.0 * (k as real));
    Mod360Identity(NormDeg(d));
    Mod360Periodic(d, k);
    if 0.0 <= d < 360.0 {
      Mod360Identity(d);
    }
  }

  // ---------------------------------------------------------------------------
  // Compass points
  // ---------------------------------------------------------------------------

  /** North, north-east, east, south-east, south, south-west, west, north-west. */
  const Directions: seq<string> :=
    ["شمال", "شمال شرق", "شرق", "جنوب شرق", "جنوب", "جنوب غرب", "غرب", "شمال غرب"]

  /** The 45-degree sector a bearing falls in, sectors centred on the eight
      compass points and numbered clockwise from north. */
  function Sector(angle: real): (k: int)
    ensures 0 <= k < 8
  {
    ((NormDeg(angle) + 22.5) / 45.0).Floor % 8
  }

  /** Sector 0 is the wedge within 22.5 degrees of north; sector k (1..7) is
      the wedge [45k - 22.5, 45k + 22.5). */
  lemma SectorBounds(angle: real, k: int)
    requires 0 <= k < 8
    ensures k == 0 ==> (Sector(angle) == 0 <==> NormDeg(angle) < 22.5 || 337.5 <= NormDeg(angle))
    ensures 1 <= k ==>
      (Sector(angle) == k <==>
         45.0 * (k as real) - 22.5 <= NormDeg(angle) < 45.0 * (k as real) + 22.5)
  {
    var n := NormDeg(angle);
    var q := (n + 22.5) / 45.0;
    assert 0.5 <= q < 8.5;
    assert 0 <= q.Floor <= 8;
    assert (q.Floor as real) <= q < (q.Floor as real) + 1.0;
  }

  /** `_dir8_ar`: the Arabic name of the compass point nearest the bearing. */
  function Dir8(angle: real): (name: string)
    ensures name in Directions
  {
    Directions[Sector(angle)]
  }

  /** The four cardinal bearings name themselves, the wedge around north wraps
      past 360, and a bearing and its copy a turn away share a name. */
  lemma Dir8Cardinals(angle: real, k: int)
    ensures Dir8(0.0) == "شمال" && Dir8(90.0) == "شرق"
    ensures Dir8(180.0) == "جنوب" && Dir8(270.0) == "غرب"
    ensures Dir8(337.5) == "شمال" && Dir8(-90.0) == "غرب"
    ensures Dir8(angle + 360.0 * (k as real)) == Dir8(angle)
  {
    Mod360Identity(0.0);
    Mod360Identity(90.0);
    Mod360Identity(180.0);
    Mod360Identity(270.0);
    Mod360Identity(337.5);
    NormDegLaws(0.0, 0);
    NormDegLaws(90.0, 0);
    NormDegLaws(180.0, 0);
    NormDegLaws(270.0, 0);
    NormDegLaws(337.5, 0);
    NormDegLaws(270.0, -1);
    assert -90.0 == 270.0 + 360.0 * (-1 as real);
    NormDegLaws(angle, k);
  }

  // ---------------------------------------------------------------------------
  // Terrain and wind
  // ---------------------------------------------------------------------------

  /** Earth Engine's Number.mod: the remainder of the division truncated
      toward zero, so it keeps the sign of the dividend. */
  function TruncMod360(x: real): (r: real)
    ensures -360.0 < r < 360.0
    ensures x >= 0.0 ==> 0.0 <= r
    ensures x < 0.0 ==> r <= 0.0
  {
    if x >= 0.0 then x - 360.0 * ((x / 360.0).Floor as real)
    else x + 360.0 * ((-x / 360.0).Floor as real)
  }

  /** The upslope direction: the terrain aspect (the downslope direction)
      turned half a turn. */
  function Upslope(aspect: real): (r: real)
    ensures -360.0 < r < 360.0
  {
    TruncMod360(aspect + 180.0)
  }

  /** For every aspect from -180 up (Earth Engine's aspect lies in [0, 360))
      the truncated remainder agrees with the normalised bearing. */
  lemma UpslopeIsBearing(aspect: real)
    requires aspect >= -180.0
    ensures 0.0 <= Upslope(aspect) < 360.0
    ensures Upslope(aspect) == NormDeg(aspect + 180.0)
  {
    NormDegIsMod360(aspect + 180.0);
  }

  /** `math.degrees` and `math.radians`, through the model's pi. */
  function Degrees(f: Analytic, rad: real): (deg: real)
    ensures rad == 0.0 ==> deg == 0.0
  {
    rad * 180.0 / f.pi
  }

  function Radians(f: Analytic, deg: real): (rad: real)
    ensures deg == 0.0 ==> rad == 0.0
    ensures deg > 0.0 ==> rad > 0.0
  {
    MulPositiveIf(deg, f.pi);
    deg * f.pi / 180.0
  }

  /** A slope angle strictly between 0 and 90 degrees is strictly between 0
      and pi/2 radians. */
  lemma RadiansOfSlope(f: Analytic, slope: real)
    requires 0.0 < slope < 90.0
    ensures 0.0 < Radians(f, slope) < f.pi / 2.0
  {
    var p := f.pi;
    var m := slope * p;
    MulStrict(slope, 90.0, p);
    MulPositive(slope, p);
    assert m < 90.0 * p;
    assert Radians(f, slope) == m / 180.0;
    assert m / 180.0 < p / 2.0;
  }

  /** A two-component vector. */
  datatype Vector = Vector(x: real, y: real)

  /** The bearing the wind blows toward, 0 = north, 90 = east. */
  function WindToward(f: Analytic, u: real, v: real): (deg: real)
    ensures 0.0 <= deg < 360.0
  {
    NormDeg(Degrees(f, f.atan2(u, v)))
  }

  /** The wind's strength: its speed. */
  function WindStrength(f: Analytic, u: real, v: real): real
  {
    f.sqrt(u * u + v * v)
  }

  /** The slope's strength: the tangent of the slope angle. */
  function SlopeStrength(f: Analytic, slopeDeg: real): real
  {
    f.tan(Radians(f, slopeDeg))
  }

  /** The sum of the slope vector (along the upslope axis) and the wind
      vector, in a frame whose x axis points upslope. */
  function SpreadVector(f: Analytic, slopeDeg: real, upslopeDeg: real, u: real, v: real): Vector
  {
    var omega := Radians(f, NormDeg(WindToward(f, u, v) - upslopeDeg));
    var dw := WindStrength(f, u, v);
    Vector(SlopeStrength(f, slopeDeg) + dw * f.cos(omega), dw * f.sin(omega))
  }

  /** The bearing of the spread vector: its angle from the upslope axis added
      to the upslope bearing. */
  function SpreadBearing(f: Analytic, slopeDeg: real, upslopeDeg: real, u: real, v: real): (b: real)
    ensures 0.0 <= b < 360.0
  {
    var s := SpreadVector(f, slopeDeg, upslopeDeg, u, v);
    NormDeg(upslopeDeg + Degrees(f, f.atan2(s.y, s.x)))
  }

  /** The two cases the spread vector is built for: without wind it is the
      slope vector alone, and a wind blowing straight upslope adds its speed
      along the upslope axis; in both it has no cross-slope component. */
  lemma SpreadVectorLaws(f: Analytic, slopeDeg: real, upslopeDeg: real, u: real, v: real)
    requires Lawful(f)
    ensures SpreadVector(f, slopeDeg, upslopeDeg, 0.0, 0.0) == Vector(SlopeStrength(f, slopeDeg), 0.0)
    ensures WindToward(f, u, v) == upslopeDeg ==>
              SpreadVector(f, slopeDeg, upslopeDeg, u, v) == Vector(SlopeStrength(f, slopeDeg) + WindStrength(f, u, v), 0.0)
  {
    WindStrengthCalm(f);
    if WindToward(f, u, v) == upslopeDeg {
      Mod360Identity(0.0);
      NormDegLaws(0.0, 0);
      assert Radians(f, NormDeg(WindToward(f, u, v) - upslopeDeg)) == 0.0;
    }
  }

  /** Without wind the fire runs straight upslope (on flat ground the slope
      vector vanishes too and the angle is 0, so the answer is the same). */
  lemma CalmSpreadsUpslope(f: Analytic, slopeDeg: real, upslopeDeg: real)
    requires Lawful(f)
    requires 0.0 <= slopeDeg < 90.0
    ensures SpreadBearing(f, slopeDeg, upslopeDeg, 0.0, 0.0) == NormDeg(upslopeDeg)
  {
    SpreadVectorLaws(f, slopeDeg, upslopeDeg, 0.0, 0.0);
    SlopeStrengthNonNegative(f, slopeDeg);
    var s := SpreadVector(f, slopeDeg, upslopeDeg, 0.0, 0.0);
    assert f.atan2(s.y, s.x) == 0.0;
  }

  /** A wind blowing straight upslope keeps the fire running upslope. */
  lemma AlignedWindSpreadsUpslope(f: Analytic, slopeDeg: real, upslopeDeg: real, u: real, v: real)
    requires Lawful(f)
    requires 0.0 <= slopeDeg < 90.0
    requires WindToward(f, u, v) == upslopeDeg
    ensures SpreadBearing(f, slopeDeg, upslopeDeg, u, v) == upslopeDeg
  {
    SpreadVectorLaws(f, slopeDeg, upslopeDeg, u, v);
    WindStrengthNonNegative(f, u, v);
    SlopeStrengthNonNegative(f, slopeDeg);
    var s := SpreadVector(f, slopeDeg, upslopeDeg, u, v);
    assert f.atan2(s.y, s.x) == 0.0;
    NormDegLaws(upslopeDeg, 0);
  }

  lemma WindStrengthCalm(f: Analytic)
    requires Lawful(f)
    ensures WindStrength(f, 0.0, 0.0) == 0.0
  {
    assert 0.0 * 0.0 + 0.0 * 0.0 == 0.0;
  }

  lemma WindStrengthNonNegative(f: Analytic, u: real, v: real)
    requires Lawful(f)
    ensures WindStrength(f, u, v) >= 0.0
  {
    MulNonNegativeSquare(u);
    MulNonNegativeSquare(v);
  }

  /** tan(slope) is at least 0 on [0, 90) degrees. */
  lemma SlopeStrengthNonNegative(f: Analytic, slopeDeg: real)
    requires Lawful(f)
    requires 0.0 <= slopeDeg < 90.0
    ensures SlopeStrength(f, slopeDeg) >= 0.0
  {
    if slopeDeg > 0.0 {
      RadiansOfSlope(f, slopeDeg);
    }
  }

  // ---------------------------------------------------------------------------
  // The endpoint's computation
  // ---------------------------------------------------------------------------

  /** The region means fetched from the data source: slope (degrees), aspect
      (degrees) and the wind components; each but the aspect may be missing. */
  datatype SpreadInputs = SpreadInputs(slope: Option<real>, aspect: real, u: Option<real>, v: Option<real>)

  /** The bearing computed from the fetched values, a missing or zero value
      read as 0. */
  function BearingOf(f: Analytic, inputs: SpreadInputs): (b: real)
    ensures 0.0 <= b < 360.0
  {
    SpreadBearing(f, SafeNumber(inputs.slope, 0.0), SafeNumber(Some(Upslope(inputs.aspect)), 0.0),
                  SafeNumber(inputs.u, 0.0), SafeNumber(inputs.v, 0.0))
  }

  /** The Arabic compass point of the spread direction. */
  function SpreadDirection(f: Analytic, inputs: SpreadInputs): (name: string)
    ensures name in Directions
  {
    Dir8(BearingOf(f, inputs))
  }

  /** With slope and wind both missing the fire runs upslope; on a
      south-facing slope (aspect 180) that is north. */
  lemma MissingSlopeAndWind(f: Analytic, inputs: SpreadInputs)
    requires Lawful(f)
    requires inputs.slope.None? && inputs.u.None? && inputs.v.None?
    requires inputs.aspect >= -180.0
    ensures BearingOf(f, inputs) == Upslope(inputs.aspect)
    ensures inputs.aspect == 180.0 ==> SpreadDirection(f, inputs) == "شمال"
  {
    UpslopeIsBearing(inputs.aspect);
    var up := Upslope(inputs.aspect);
    assert SafeNumber(Some(up), 0.0) == up;
    CalmSpreadsUpslope(f, 0.0, up);
    NormDegLaws(up, 0);
    if inputs.aspect == 180.0 {
      Mod360Identity(0.0);
      assert Upslope(180.0) == 0.0;
      Dir8Cardinals(0.0, 0);
    }
  }
}
