/** The interpolation helpers every animated value goes through, with the
    facts about repeated damped steps that the animation relies on. None of
    the source's lerp factors is clamped to 1, so the facts below say what
    happens for every factor, not only for factors in [0, 1]. */
module MathUtils {

  function Abs(x: real): (r: real)
    ensures r >= 0.0 && (r == x || r == -x)
  {
    if x < 0.0 then -x else x
  }

  /** r lies between a and b, whichever is smaller. */
  predicate Between(r: real, a: real, b: real)
  {
    (a <= r <= b) || (b <= r <= a)
  }

  /** A sine or cosine supplied by the host: the model only knows its range. */
  ghost predicate UnitBounded(f: real -> real)
  {
    forall a :: -1.0 <= f(a) <= 1.0
  }

  /** A value as returned by Math.random. */
  predicate IsRandom(r: real)
  {
    0.0 <= r < 1.0
  }

  /** One damped step `current + (target - current) * factor`, as written
      out in the particle loop and as done by Vector3.lerp. The distance
      left to the target is multiplied by (1 - factor). */
  function Approach(current: real, target: real, factor: real): (r: real)
    ensures target - r == (target - current) * (1.0 - factor)
    ensures factor == 0.0 ==> r == current
    ensures factor == 1.0 ==> r == target
  {
    current + (target - current) * factor
  }

  lemma MulPositive(a: real, b: real)
    requires a > 0.0 && b > 0.0
    ensures a * b > 0.0
  {
  }

  lemma MulNonNegative(a: real, b: real)
    requires a >= 0.0 && b >= 0.0
    ensures a * b >= 0.0
  {
  }

  /** Scaling by a factor in [0, 1] moves a number toward 0 without passing it. */
  lemma MulUnit(e: real, f: real)
    requires 0.0 <= f <= 1.0
    ensures e >= 0.0 ==> 0.0 <= e * f <= e
    ensures e <= 0.0 ==> e <= e * f <= 0.0
  {
    var g := 1.0 - f;
    assert e * f + e * g == e;
    if e >= 0.0 {
      MulNonNegative(e, f);
      MulNonNegative(e, g);
    } else {
      MulNonNegative(-e, f);
      MulNonNegative(-e, g);
      assert (-e) * f == -(e * f);
      assert (-e) * g == -(e * g);
    }
  }

  /** A factor in [0, 1] keeps the value between where it was and its
      target: no overshoot. */
  lemma ApproachBetween(current: real, target: real, factor: real)
    requires 0.0 <= factor <= 1.0
    ensures Between(Approach(current, target, factor), current, target)
  {
    var e := target - current;
    assert Approach(current, target, factor) == current + e * factor;
    MulUnit(e, factor);
  }

  /** THREE.MathUtils.lerp, `(1 - t) * x + t * y`; in exact arithmetic the
      same step as Approach. */
  function Lerp(x: real, y: real, t: real): (r: real)
    ensures r == Approach(x, y, t)
  {
    (1.0 - t) * x + t * y
  }

  /** THREE.MathUtils.clamp, `max(lo, min(hi, v))`. */
  function Clamp(v: real, lo: real, hi: real): (r: real)
    ensures lo <= hi ==> lo <= r <= hi
    ensures lo <= v <= hi ==> r == v
    ensures v < lo ==> r == lo
    ensures lo <= hi && hi < v ==> r == hi
  {
    var m := if hi < v then hi else v;
    if lo < m then m else lo
  }

  /** The value after one damped step per factor, in order. */
  function ApproachAll(current: real, target: real, factors: seq<real>): real
    decreases |factors|
  {
    if factors == [] then current
    else ApproachAll(Approach(current, target, factors[0]), target, factors[1..])
  }

  /** The product of (1 - f) over the factors: the share of the initial
      distance to the target that is left after the steps. */
  function Remaining(factors: seq<real>): real
    decreases |factors|
  {
    if factors == [] then 1.0 else (1.0 - factors[0]) * Remaining(factors[1..])
  }

  /** After any number of damped steps toward a fixed target, the distance
      left is the initial distance times Remaining: the discrete form of
      exponential convergence. */
  lemma {:induction false} ApproachAllError(current: real, target: real, factors: seq<real>)
    ensures target - ApproachAll(current, target, factors) == (target - current) * Remaining(factors)
    decreases |factors|
  {
    if factors != [] {
      var next := Approach(current, target, factors[0]);
      ApproachAllError(next, target, factors[1..]);
      calc {
        target - ApproachAll(current, target, factors);
        target - ApproachAll(next, target, factors[1..]);
        (target - next) * Remaining(factors[1..]);
        ((target - current) * (1.0 - factors[0])) * Remaining(factors[1..]);
        (target - current) * ((1.0 - factors[0]) * Remaining(factors[1..]));
      }
    }
  }

  /** With every factor in [0, 1], the share left is in [0, 1]. */
  lemma {:induction false} RemainingBounded(factors: seq<real>)
    requires forall k :: 0 <= k < |factors| ==> 0.0 <= factors[k] <= 1.0
    ensures 0.0 <= Remaining(factors) <= 1.0
    decreases |factors|
  {
    if factors != [] {
      RemainingBounded(factors[1..]);
      var a, b := 1.0 - factors[0], Remaining(factors[1..]);
      assert Remaining(factors) == a * b;
      MulUnit(b, a);
      assert a * b == b * a;
    }
  }

  /** Steps with factors in [0, 1] never move a value farther from its
      target, and a value already at its target stays there. */
  lemma ApproachAllConverges(current: real, target: real, factors: seq<real>)
    requires forall k :: 0 <= k < |factors| ==> 0.0 <= factors[k] <= 1.0
    ensures Abs(target - ApproachAll(current, target, factors)) <= Abs(target - current)
    ensures current == target ==> ApproachAll(current, target, factors) == target
  {
    ApproachAllError(current, target, factors);
    RemainingBounded(factors);
    var e, q := target - current, Remaining(factors);
    assert target - ApproachAll(current, target, factors) == e * q;
    ScaledDown(e, q);
  }

  /** Scaling by a factor in [0, 1] does not increase the magnitude. */
  lemma ScaledDown(e: real, q: real)
    requires 0.0 <= q <= 1.0
    ensures Abs(e * q) <= Abs(e)
    ensures e == 0.0 ==> e * q == 0.0
  {
    MulUnit(e, q);
    Shrinks(e, e * q);
  }

  /** A number between 0 and e is no larger than e in magnitude. */
  lemma Shrinks(e: real, p: real)
    requires e >= 0.0 ==> 0.0 <= p <= e
    requires e <= 0.0 ==> e <= p <= 0.0
    ensures Abs(p) <= Abs(e)
    ensures e == 0.0 ==> p == 0.0
  {
  }

  /** Without a clamp, a factor above 1 carries the value past its target,
      and a factor above 2 leaves it farther from the target than before. */
  lemma UnclampedOvershoot(current: real, target: real, factor: real)
    requires factor > 1.0 && current != target
    ensures !Between(Approach(current, target, factor), current, target)
    ensures factor > 2.0 ==> Abs(target - Approach(current, target, factor)) > Abs(target - current)
  {
    var e := target - current;
    var r := Approach(current, target, factor);
    assert target - r == e * (1.0 - factor);
    var g := factor - 1.0;
    assert target - r == -(e * g);
    if e > 0.0 {
      assert e * g > 0.0;
      assert factor > 2.0 ==> e * g > e;
    } else {
      assert target - r == (-e) * g;
      assert (-e) * g > 0.0;
      if factor > 2.0 {
        assert (-e) * g > (-e) * 1.0;
        assert Abs(target - r) == (-e) * g && Abs(target - current) == -e;
      }
    }
  }
}
