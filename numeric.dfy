/** Numeric building blocks shared by the fire-danger engine: clamping, Earth
    Engine's division, the null-to-default rule, and the transcendental
    functions the formulas use, passed in as values together with the few laws
    the proofs rely on. */
module Numeric {

  datatype Option<T> = None | Some(value: T)

  type PosReal = x: real | x > 0.0 witness 1.0

  function Max(a: real, b: real): (r: real)
    ensures r >= a && r >= b
    ensures r == a || r == b
  {
    if a >= b then a else b
  }

  function Min(a: real, b: real): (r: real)
    ensures r <= a && r <= b
    ensures r == a || r == b
  {
    if a <= b then a else b
  }

  /** Earth Engine's `clamp(lo, hi)` and the route's `max(lo, min(hi, x))`. */
  function Clamp(x: real, lo: real, hi: real): (r: real)
    requires lo <= hi
    ensures lo <= r <= hi
    ensures lo <= x <= hi ==> r == x
    ensures x <= lo ==> r == lo
    ensures hi <= x ==> r == hi
  {
    Max(lo, Min(hi, x))
  }

  lemma ClampMonotone(x: real, y: real, lo: real, hi: real)
    requires lo <= hi && x <= y
    ensures Clamp(x, lo, hi) <= Clamp(y, lo, hi)
  {
  }

  // Small facts of real arithmetic that the solver does not find unaided when
  // the factors are compound terms; each is stated over plain variables and
  // called with the terms in place of the variables.

  lemma MulPositive(a: real, b: real)
    requires 0.0 < a && 0.0 < b
    ensures 0.0 < a * b
  {
  }

  lemma ScaledProductPositive(k: real, a: real, b: real, c: real)
    requires 0.0 < k && 0.0 < a && 0.0 < b && 0.0 < c
    ensures 0.0 < k * a * b * c
  {
    MulPositive(k, a);
    MulPositive(k * a, b);
    MulPositive(k * a * b, c);
  }

  lemma MulNonNegative(a: real, b: real)
    requires 0.0 <= a && 0.0 <= b
    ensures 0.0 <= a * b
  {
  }

  lemma MulPositiveIf(a: real, b: PosReal)
    ensures a > 0.0 ==> a * b > 0.0
    ensures a == 0.0 ==> a * b == 0.0
  {
    if a > 0.0 {
      MulPositive(a, b);
    }
  }

  lemma MulNonNegativeSquare(a: real)
    ensures a * a >= 0.0
  {
    if a < 0.0 {
      MulPositive(-a, -a);
    }
  }

  lemma MulMonotone(a: real, b: real, c: real)
    requires a <= b && 0.0 <= c
    ensures a * c <= b * c
  {
  }

  /** Scaling by a fraction in [0, 1] keeps a value above any floor that is
      itself at most 0. */
  lemma ProductFloor(a: real, c: real, lo: real)
    requires lo <= 0.0 && lo <= a && 0.0 <= c <= 1.0
    ensures lo <= a * c
  {
    if a < 0.0 {
      MulMonotone(c, 1.0, -a);
      assert -(a * c) == c * -a;
    } else {
      MulNonNegative(a, c);
    }
  }

  lemma MulStrict(a: real, b: real, c: real)
    requires a < b && 0.0 < c
    ensures a * c < b * c
  {
  }

  lemma Distribute(a: real, b: real, c: real)
    ensures (a - b) * c == a * c - b * c
  {
  }

  /** Scaling by a factor of at most 1 does not widen a gap. */
  lemma ShrinkGap(a: real, b: real, c: real)
    requires b <= a && c <= 1.0
    ensures a * c - b * c <= a - b
  {
    Distribute(a, b, c);
    MulMonotone(c, 1.0, a - b);
  }

  lemma QuotientBounds(a: real, b: real, lo: real, hi: real)
    requires 0.0 < b && lo * b <= a <= hi * b
    ensures lo <= a / b <= hi
  {
  }

  lemma QuotientBelow(a: real, b: real, c: real)
    requires 0.0 < b && a < c * b
    ensures a / b < c
  {
  }

  lemma QuotientPositive(a: real, b: real)
    requires 0.0 < a && 0.0 < b
    ensures 0.0 < a / b
  {
    var q := a / b;
    assert q * b == a;
  }

  lemma QuotientMonotone(a: real, b: real, t: real)
    requires a <= b && 0.0 < t
    ensures a / t <= b / t
  {
    var p, q := a / t, b / t;
    assert p * t == a && q * t == b;
    assert (q - p) * t == b - a;
  }

  lemma DivTimes(a: real, t: real)
    requires t != 0.0
    ensures (a / t) * t == a
  {
  }

  lemma CancelFactor(x: real, t: real)
    requires x * t == t && t != 0.0
    ensures x == 1.0
  {
    assert (x - 1.0) * t == 0.0;
  }

  lemma QuotientOfProduct(s: real, t: real)
    requires s != 0.0
    ensures (s * t) / s == t
  {
    var q := (s * t) / s;
    DivTimes(s * t, s);
    assert (q - t) * s == 0.0;
  }

  lemma Distribute3(p: real, q: real, r: real, t: real)
    ensures (p + q + r) * t == p * t + q * t + r * t
  {
  }

  lemma PartsOfTotal(p: real, q: real, r: real, a: real, b: real, c: real, t: real)
    requires p * t == a && q * t == b && r * t == c && t == a + b + c && 0.0 < t
    ensures p + q + r == 1.0
  {
    Distribute3(p, q, r, t);
    var s := p + q + r;
    assert s * t == a + b + c;
    CancelFactor(s, t);
  }

  /** Three parts of a positive total, each divided by it, add up to 1. */
  lemma QuotientSum(a: real, b: real, c: real, t: real)
    requires t == a + b + c && 0.0 < t
    ensures a / t + b / t + c / t == 1.0
  {
    DivTimes(a, t);
    DivTimes(b, t);
    DivTimes(c, t);
    PartsOfTotal(a / t, b / t, c / t, a, b, c, t);
  }

  /** A weighted sum of one value with weights summing to 1 is that value. */
  lemma WeightedOne(x: real, a: real, b: real, c: real)
    requires a + b + c == 1.0
    ensures x * a + x * b + x * c == x
  {
    assert x * a + x * b + x * c == x * (a + b + c);
  }

  lemma WeightedLower(x: real, y: real, z: real, a: real, b: real, c: real, lo: real)
    requires 0.0 <= a && 0.0 <= b && 0.0 <= c
    requires lo <= x && lo <= y && lo <= z
    ensures lo * a + lo * b + lo * c <= x * a + y * b + z * c
  {
    MulMonotone(lo, x, a);
    MulMonotone(lo, y, b);
    MulMonotone(lo, z, c);
  }

  lemma WeightedUpper(x: real, y: real, z: real, a: real, b: real, c: real, hi: real)
    requires 0.0 <= a && 0.0 <= b && 0.0 <= c
    requires x <= hi && y <= hi && z <= hi
    ensures x * a + y * b + z * c <= hi * a + hi * b + hi * c
  {
    MulMonotone(x, hi, a);
    MulMonotone(y, hi, b);
    MulMonotone(z, hi, c);
  }

  /** A convex combination of values in [lo, hi] lies in [lo, hi]. */
  lemma ConvexBetween(x: real, y: real, z: real, a: real, b: real, c: real, lo: real, hi: real)
    requires 0.0 <= a && 0.0 <= b && 0.0 <= c && a + b + c == 1.0
    requires lo <= x <= hi && lo <= y <= hi && lo <= z <= hi
    ensures lo <= x * a + y * b + z * c <= hi
  {
    WeightedLower(x, y, z, a, b, c, lo);
    WeightedUpper(x, y, z, a, b, c, hi);
    WeightedOne(lo, a, b, c);
    WeightedOne(hi, a, b, c);
  }

  /** A weighted sum with non-negative weights grows with each value. */
  lemma WeightedMonotone(x1: real, x2: real, y1: real, y2: real, z1: real, z2: real, a: real, b: real, c: real)
    requires x1 <= x2 && y1 <= y2 && z1 <= z2 && 0.0 <= a && 0.0 <= b && 0.0 <= c
    ensures x1 * a + y1 * b + z1 * c <= x2 * a + y2 * b + z2 * c
  {
    MulMonotone(x1, x2, a);
    MulMonotone(y1, y2, b);
    MulMonotone(z1, z2, c);
  }

  /** A fixed non-negative amount shared among more is less for each. */
  lemma QuotientAntitone(k: real, a: real, b: real)
    requires 0.0 <= k && 0.0 < a <= b
    ensures k / b <= k / a
  {
    var p, q := k / a, k / b;
    assert p * a == k && q * b == k;
    assert 0.0 <= q;
    assert a * q <= b * q;
  }

  /** a * t / s lies between a and t when a <= s <= t. */
  lemma ScaledQuotient(a: real, s: real, t: real)
    requires 0.0 <= a <= s <= t && 0.0 < s
    ensures a <= a * t / s <= t
  {
    MulMonotone(s, t, a);
    MulMonotone(a, s, t);
    QuotientBounds(a * t, s, a, t);
  }

  /** Earth Engine's `divide` (and `/` inside an image expression): the
      quotient, or 0 where the divisor is 0. */
  function EeDiv(a: real, b: real): (r: real)
    ensures b != 0.0 ==> r * b == a
    ensures b == 0.0 ==> r == 0.0
  {
    if b == 0.0 then 0.0 else a / b
  }

  lemma EeDivPositive(a: real, b: real)
    requires 0.0 < a && 0.0 < b
    ensures 0.0 < EeDiv(a, b)
  {
    QuotientPositive(a, b);
  }

  lemma EeDivNonNegative(a: real, b: real)
    requires 0.0 <= a && 0.0 < b
    ensures 0.0 <= EeDiv(a, b)
  {
    QuotientBounds(a, b, 0.0, a / b);
  }

  lemma EeDivBelow(a: real, b: real, c: real)
    requires 0.0 < b && a < c * b
    ensures EeDiv(a, b) < c
  {
    QuotientBelow(a, b, c);
  }

  lemma EeDivSelf(a: real, b: real)
    requires a == b && b != 0.0
    ensures EeDiv(a, b) == 1.0
  {
  }

  lemma EeDivCancel(a: real, b: real, c: real)
    requires b == c && c != 0.0
    ensures EeDiv(a * b, c) == a
  {
  }

  /** `ee.Algorithms.If(val, val, default)` and Python's `val or default`: a
      missing or zero value (both falsy) gives the default. */
  function SafeNumber(val: Option<real>, default: real): real
  {
    if val.Some? && val.value != 0.0 then val.value else default
  }

  /** With default 0 the truthiness test is invisible: a present value is kept
      as it is and only a missing one becomes 0. */
  lemma SafeNumberZeroDefault(val: Option<real>)
    ensures val.Some? ==> SafeNumber(val, 0.0) == val.value
    ensures val.None? ==> SafeNumber(val, 0.0) == 0.0
  {
  }

  /** The transcendental functions and the constant pi the formulas use. Their
      numeric values are not modelled; `Lawful` lists what the proofs assume. */
  datatype Analytic = Analytic(
    exp: real -> real,
    ln: real -> real,
    pow: (real, real) -> real,
    sqrt: real -> real,
    sin: real -> real,
    cos: real -> real,
    tan: real -> real,
    atan2: (real, real) -> real,
    pi: PosReal)

  /** The laws of the real functions that the proofs use, and nothing more. */
  ghost predicate Lawful(f: Analytic)
  {
    ExpLaws(f) && PowerLaws(f) && TrigLaws(f)
  }

  /** exp is positive and strictly increasing with exp(0) = 1; exp and ln
      are inverse to each other on the positive reals, and ln is monotone. */
  ghost predicate ExpLaws(f: Analytic)
  {
    && (forall x :: f.exp(x) > 0.0)
    && f.exp(0.0) == 1.0
    && (forall x, y :: x < y ==> f.exp(x) < f.exp(y))
    && (forall x {:trigger f.ln(f.exp(x))} :: f.ln(f.exp(x)) == x)
    && (forall x {:trigger f.exp(f.ln(x))} :: 0.0 < x ==> f.exp(f.ln(x)) == x)
    && (forall x, y :: 0.0 < x <= y ==> f.ln(x) <= f.ln(y))
  }

  /** Square roots and powers of non-negative numbers are non-negative, the
      square root of a positive number is positive, and a power of a fraction
      with exponent in (0, 1] lies between the fraction and 1. */
  ghost predicate PowerLaws(f: Analytic)
  {
    && (forall x :: 0.0 <= x ==> 0.0 <= f.sqrt(x))
    && (forall x :: 0.0 < x ==> 0.0 < f.sqrt(x))
    && f.sqrt(0.0) == 0.0
    && (forall x, y :: 0.0 <= x ==> 0.0 <= f.pow(x, y))
    && (forall x, y :: 0.0 <= x <= 1.0 && 0.0 < y ==> f.pow(x, y) <= 1.0)
    && (forall x, y :: 0.0 <= x <= 1.0 && 0.0 < y <= 1.0 ==> x <= f.pow(x, y))
  }

  /** pi to two decimals; sin, cos and tan at 0; tan positive on the rest of
      the first quadrant; atan2 of a point on the non-negative x axis is 0. */
  ghost predicate TrigLaws(f: Analytic)
  {
    && 3.14 < f.pi < 3.15
    && f.sin(0.0) == 0.0 && f.cos(0.0) == 1.0 && f.tan(0.0) == 0.0
    && (forall x :: 0.0 < x < f.pi / 2.0 ==> 0.0 < f.tan(x))
    && (forall x :: 0.0 <= x ==> f.atan2(0.0, x) == 0.0)
  }

  /** A decay factor exp(-k) for a rate k >= 0 lies in (0, 1]. */
  lemma ExpDecay(f: Analytic, k: real)
    requires Lawful(f) && 0.0 <= k
    ensures 0.0 < f.exp(-k) <= 1.0
  {
    if k > 0.0 {
      assert f.exp(-k) < f.exp(0.0);
    }
  }

  lemma ExpBelowOne(f: Analytic, x: real)
    requires Lawful(f) && x < 0.0
    ensures 0.0 < f.exp(x) < 1.0
  {
    assert f.exp(x) < f.exp(0.0);
  }

  /** Crude stand-ins that obey every law of `Lawful`: the laws are consistent. */
  function WitnessExp(x: real): real { if x < 0.0 then 1.0 / (1.0 - x) else 1.0 + x }
  function WitnessLn(y: real): real { if y <= 0.0 then 0.0 else if y < 1.0 then 1.0 - 1.0 / y else y - 1.0 }
  function WitnessPow(x: real, y: real): real { if 0.0 <= x then x else 0.0 }
  function WitnessSqrt(x: real): real { if 0.0 <= x then x else 0.0 }

  const Witness: Analytic := Analytic(
    WitnessExp, WitnessLn, WitnessPow, WitnessSqrt,
    x => 0.0, x => 1.0, x => x, (y, x) => 0.0, 3.1416)

  lemma ReciprocalAntitone(a: real, b: real)
    requires 0.0 < a <= b
    ensures 0.0 < 1.0 / b <= 1.0 / a
  {
    var p, q := 1.0 / a, 1.0 / b;
    assert p * a == 1.0 && q * b == 1.0;
  }

  lemma WitnessExpLaws(x: real, y: real)
    ensures WitnessExp(x) > 0.0
    ensures x < y ==> WitnessExp(x) < WitnessExp(y)
    ensures WitnessLn(WitnessExp(x)) == x
  {
    if x < 0.0 {
      var e := 1.0 / (1.0 - x);
      assert e * (1.0 - x) == 1.0;
      assert 0.0 < e < 1.0;
      assert 1.0 / e == 1.0 - x;
      if x < y && y < 0.0 {
        ReciprocalAntitone(1.0 - y, 1.0 - x);
      }
    }
  }

  lemma WitnessLnInverse(y: real)
    requires 0.0 < y
    ensures WitnessExp(WitnessLn(y)) == y
  {
    if y < 1.0 {
      var l := 1.0 - 1.0 / y;
      assert (1.0 / y) * y == 1.0;
      assert l < 0.0;
      assert 1.0 - l == 1.0 / y;
      assert WitnessExp(l) == 1.0 / (1.0 / y);
    }
  }

  lemma WitnessLnMonotone(x: real, y: real)
    requires 0.0 < x <= y
    ensures WitnessLn(x) <= WitnessLn(y)
  {
    if y < 1.0 {
      ReciprocalAntitone(x, y);
    }
  }

  lemma WitnessExpLawful()
    ensures ExpLaws(Witness)
  {
    var f := Witness;
    forall x ensures f.exp(x) > 0.0 && f.ln(f.exp(x)) == x {
      WitnessExpLaws(x, x);
    }
    forall x, y | x < y ensures f.exp(x) < f.exp(y) {
      WitnessExpLaws(x, y);
    }
    forall x, y | 0.0 < x <= y ensures f.ln(x) <= f.ln(y) {
      WitnessLnMonotone(x, y);
    }
    forall x | 0.0 < x ensures f.exp(f.ln(x)) == x {
      WitnessLnInverse(x);
    }
  }

  lemma LawfulWitness()
    ensures Lawful(Witness)
  {
    WitnessExpLawful();
    assert PowerLaws(Witness);
    assert TrigLaws(Witness);
  }
}
