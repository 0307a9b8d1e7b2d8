/** The particle field: four flat buffers of ParticleCount * 3 coordinates
    filled once per theme, and a per-frame loop that moves every position a
    damped step toward a target that depends on the gesture, while the whole
    group spins about the vertical axis. */
module LuxParticles {
  import opened Types
  import opened Constants
  import opened MathUtils

  const BufferLength: nat := ParticleCount * 3
  /** Math.random is called eight times per particle while the buffers are
      filled: angle jitter, x/y/z jitter, colour mix, three direction components. */
  const DrawsPerParticle: nat := 8
  const DrawCount: nat := ParticleCount * DrawsPerParticle

  /** A supply of Math.random values, consumed in the source's order. */
  predicate ValidDraws(draws: seq<real>)
  {
    |draws| == DrawCount && forall k :: 0 <= k < |draws| ==> IsRandom(draws[k])
  }

  function Draw(draws: seq<real>, i: nat, j: nat): real
    requires |draws| == DrawCount && i < ParticleCount && j < DrawsPerParticle
  {
    draws[i * 8 + j]
  }

  /** Coordinate a (0 = x, 1 = y, 2 = z) of v. */
  function Axis(v: Vec3, a: nat): real
    requires a < 3
  {
    if a == 0 then v.x else if a == 1 then v.y else v.z
  }

  /** The share p = i / N of the tree's height at which particle i sits. */
  function Fraction(i: nat): real
  {
    (i as real) / (ParticleCount as real)
  }

  /** Height of particle i on the cone before jitter, centred on 0. */
  function SpiralHeight(i: nat): real
  {
    Fraction(i) * TreeHeight - TreeHeight / 2.0
  }

  /** Radius of the cone at particle i: widest at the bottom. */
  function SpiralRadius(i: nat): real
  {
    (1.0 - Fraction(i)) * TreeRadius
  }

  /** A random offset of the given spread (0.5), centred on 0. */
  function Jitter(draw: real): real
  {
    (draw - 0.5) * 0.5
  }

  /** The rest ("tree") position of particle i. */
  function RestPoint(i: nat, draws: seq<real>, cos: real -> real, sin: real -> real): Vec3
    requires |draws| == DrawCount && i < ParticleCount
  {
    var angle := Fraction(i) * 50.0 + Draw(draws, i, 0) * 0.5;
    var r := SpiralRadius(i);
    Vec3(cos(angle) * r + Jitter(Draw(draws, i, 1)),
         SpiralHeight(i) + Jitter(Draw(draws, i, 2)),
         sin(angle) * r + Jitter(Draw(draws, i, 3)))
  }

  /** The colour mixing factor of particle i, from secondary (0) toward primary (1). */
  function MixFactor(i: nat, draws: seq<real>): real
    requires |draws| == DrawCount && i < ParticleCount
  {
    Draw(draws, i, 4) * Fraction(i) + 0.2
  }

  /** The colour of particle i: Color.lerp of secondary toward primary, per channel. */
  function ParticleColor(i: nat, draws: seq<real>, secondary: Vec3, primary: Vec3): Vec3
    requires |draws| == DrawCount && i < ParticleCount
  {
    var m := MixFactor(i, draws);
    Vec3(Approach(secondary.x, primary.x, m), Approach(secondary.y, primary.y, m), Approach(secondary.z, primary.z, m))
  }

  /** The explosion direction of particle i. */
  function Direction(i: nat, draws: seq<real>): Vec3
    requires |draws| == DrawCount && i < ParticleCount
  {
    Vec3((Draw(draws, i, 5) - 0.5) * 2.0, (Draw(draws, i, 6) - 0.5) * 2.0, (Draw(draws, i, 7) - 0.5) * 2.0)
  }

  /** The flat rest buffer: coordinate k % 3 of particle k / 3 at index k. */
  function RestBuffer(draws: seq<real>, cos: real -> real, sin: real -> real): (b: seq<real>)
    requires |draws| == DrawCount
    ensures |b| == BufferLength
  {
    seq(BufferLength, k requires 0 <= k < BufferLength => Axis(RestPoint(k / 3, draws, cos, sin), k % 3))
  }

  function ColorBuffer(draws: seq<real>, secondary: Vec3, primary: Vec3): (b: seq<real>)
    requires |draws| == DrawCount
    ensures |b| == BufferLength
  {
    seq(BufferLength, k requires 0 <= k < BufferLength => Axis(ParticleColor(k / 3, draws, secondary, primary), k % 3))
  }

  function DirectionBuffer(draws: seq<real>): (b: seq<real>)
    requires |draws| == DrawCount
    ensures |b| == BufferLength
  {
    seq(BufferLength, k requires 0 <= k < BufferLength => Axis(Direction(k / 3, draws), k % 3))
  }

  /** Particle i's coordinates sit at indices 3i, 3i + 1 and 3i + 2 of each buffer. */
  lemma BuffersAt(i: nat, draws: seq<real>, secondary: Vec3, primary: Vec3, cos: real -> real, sin: real -> real)
    requires |draws| == DrawCount && i < ParticleCount
    ensures RestBuffer(draws, cos, sin)[3 * i] == RestPoint(i, draws, cos, sin).x
    ensures RestBuffer(draws, cos, sin)[3 * i + 1] == RestPoint(i, draws, cos, sin).y
    ensures RestBuffer(draws, cos, sin)[3 * i + 2] == RestPoint(i, draws, cos, sin).z
    ensures ColorBuffer(draws, secondary, primary)[3 * i] == ParticleColor(i, draws, secondary, primary).x
    ensures ColorBuffer(draws, secondary, primary)[3 * i + 1] == ParticleColor(i, draws, secondary, primary).y
    ensures ColorBuffer(draws, secondary, primary)[3 * i + 2] == ParticleColor(i, draws, secondary, primary).z
    ensures DirectionBuffer(draws)[3 * i] == Direction(i, draws).x
    ensures DirectionBuffer(draws)[3 * i + 1] == Direction(i, draws).y
    ensures DirectionBuffer(draws)[3 * i + 2] == Direction(i, draws).z
  {
    assert (3 * i) / 3 == i && (3 * i) % 3 == 0;
    assert (3 * i + 1) / 3 == i && (3 * i + 1) % 3 == 1;
    assert (3 * i + 2) / 3 == i && (3 * i + 2) % 3 == 2;
  }

  /** Particle i sits on the cone: height in [-6, 6), non-decreasing in i,
      radius in (0, 5]; each jitter is within 0.25. */
  lemma SpiralShape(i: nat, j: nat, draw: real)
    requires i <= j < ParticleCount
    requires IsRandom(draw)
    ensures -6.0 <= SpiralHeight(i) < 6.0
    ensures SpiralHeight(i) <= SpiralHeight(j)
    ensures 0.0 < SpiralRadius(i) <= 5.0
    ensures -0.25 <= Jitter(draw) < 0.25
  {
  }

  /** The rest position is the cone point moved by at most 0.25 per axis;
      horizontally it lies within radius + 0.25 of the axis on each coordinate. */
  lemma RestPointNearCone(i: nat, draws: seq<real>, cos: real -> real, sin: real -> real)
    requires ValidDraws(draws) && i < ParticleCount
    requires UnitBounded(cos) && UnitBounded(sin)
    ensures Abs(RestPoint(i, draws, cos, sin).y - SpiralHeight(i)) <= 0.25
    ensures Abs(RestPoint(i, draws, cos, sin).x) <= SpiralRadius(i) + 0.25
    ensures Abs(RestPoint(i, draws, cos, sin).z) <= SpiralRadius(i) + 0.25
  {
    var angle := Fraction(i) * 50.0 + Draw(draws, i, 0) * 0.5;
    var d1, d2, d3 := Draw(draws, i, 1), Draw(draws, i, 2), Draw(draws, i, 3);
    assert IsRandom(d1) && IsRandom(d2) && IsRandom(d3) by {
      assert draws[i * 8 + 1] == d1;
      assert draws[i * 8 + 2] == d2;
      assert draws[i * 8 + 3] == d3;
    }
    assert -1.0 <= cos(angle) <= 1.0 && -1.0 <= sin(angle) <= 1.0;
    var p := RestPoint(i, draws, cos, sin);
    OnConeWithin(cos(angle), SpiralRadius(i), Jitter(d1), p.x);
    OnConeWithin(sin(angle), SpiralRadius(i), Jitter(d3), p.z);
  }

  /** A cone coordinate `c * r` moved by a jitter j of at most 0.25 stays within r + 0.25 of the axis. */
  lemma OnConeWithin(c: real, r: real, j: real, v: real)
    requires -1.0 <= c <= 1.0 && r >= 0.0 && -0.25 <= j <= 0.25 && v == c * r + j
    ensures Abs(v) <= r + 0.25
  {
    assert -r <= c * r <= r;
  }

  /** Every explosion-direction component lies in [-1, 1). */
  lemma DirectionBounded(i: nat, draws: seq<real>, a: nat)
    requires ValidDraws(draws) && i < ParticleCount && a < 3
    ensures -1.0 <= Axis(Direction(i, draws), a) < 1.0
  {
    assert IsRandom(Draw(draws, i, 5)) && IsRandom(Draw(draws, i, 6)) && IsRandom(Draw(draws, i, 7));
  }

  /** The colour mixing factor lies in [0.2, 1.2): the upper particles may
      be pushed past the primary colour. */
  lemma MixFactorRange(i: nat, draws: seq<real>)
    requires ValidDraws(draws) && i < ParticleCount
    ensures 0.2 <= MixFactor(i, draws) < 1.2
  {
    var d := Draw(draws, i, 4);
    assert IsRandom(d);
    assert 0.0 <= Fraction(i) < 1.0;
    assert 0.0 <= d * Fraction(i) <= d;
  }

  /** The damping rate: slower toward the galaxy than back to the tree. */
  function Damping(g: Gesture): real
  {
    if g == Open then 2.0 else 4.0
  }

  /** The spin rate of the whole group about the vertical axis. */
  function SpinRate(g: Gesture): real
  {
    if g == Open then 0.05 else 0.1
  }

  /** The target of buffer coordinate k at time t: in OPEN a point of the
      breathing galaxy cloud, otherwise the rest position plus a sparkle. */
  function Target(k: nat, rest: seq<real>, dirs: seq<real>, g: Gesture, t: real,
                  sin: real -> real, cos: real -> real): real
    requires k < |rest| && k < |dirs|
  {
    var i := (k / 3) as real;
    var a := k % 3;
    if g == Open then
      if a == 0 then dirs[k] * ExplosionRadius + sin(t * 0.5 + i) * 2.0
      else if a == 1 then dirs[k] * ExplosionRadius * 0.5 + cos(t * 0.3 + i) * 2.0
      else dirs[k] * ExplosionRadius + sin(t * 0.5 + i * 0.5) * 2.0
    else
      if a == 0 then rest[k] + sin(t * 2.0 + i) * 0.05
      else if a == 1 then rest[k] + cos(t * 3.0 + i) * 0.05
      else rest[k] + sin(t * 2.0 + i) * 0.05
  }

  /** Away from OPEN, a target is within 0.05 of the rest coordinate. */
  lemma TargetNearRest(k: nat, rest: seq<real>, dirs: seq<real>, g: Gesture, t: real,
                       sin: real -> real, cos: real -> real)
    requires k < |rest| && k < |dirs| && g != Open
    requires UnitBounded(sin) && UnitBounded(cos)
    ensures Abs(Target(k, rest, dirs, g, t, sin, cos) - rest[k]) <= 0.05
  {
    var i := (k / 3) as real;
    assert -1.0 <= sin(t * 2.0 + i) <= 1.0 && -1.0 <= cos(t * 3.0 + i) <= 1.0;
  }

  /** In OPEN, a target is within 2 of the direction scaled by (25, 12.5, 25). */
  lemma TargetNearGalaxy(k: nat, rest: seq<real>, dirs: seq<real>, t: real,
                         sin: real -> real, cos: real -> real)
    requires k < |rest| && k < |dirs|
    requires UnitBounded(sin) && UnitBounded(cos)
    ensures Abs(Target(k, rest, dirs, Open, t, sin, cos) - dirs[k] * (if k % 3 == 1 then 12.5 else 25.0)) <= 2.0
  {
    var i := (k / 3) as real;
    assert -1.0 <= sin(t * 0.5 + i) <= 1.0 && -1.0 <= cos(t * 0.3 + i) <= 1.0;
    assert -1.0 <= sin(t * 0.5 + i * 0.5) <= 1.0;
  }

  /** The position buffer after one frame: every coordinate a damped step of
      factor delta * Damping toward its target. */
  function FrameBuffer(current: seq<real>, rest: seq<real>, dirs: seq<real>, g: Gesture, t: real, delta: real,
                       sin: real -> real, cos: real -> real): (next: seq<real>)
    requires |current| == |rest| == |dirs|
    ensures |next| == |current|
  {
    seq(|current|, k requires 0 <= k < |current| =>
      Approach(current[k], Target(k, rest, dirs, g, t, sin, cos), delta * Damping(g)))
  }

  /** The targets of particle i's three coordinates, as the loop computes them. */
  lemma TargetsOf(rest: seq<real>, dirs: seq<real>, g: Gesture, t: real, sin: real -> real, cos: real -> real, i: nat)
    requires |rest| == |dirs| == BufferLength && i < ParticleCount
    ensures var ir := i as real;
      && Target(3 * i, rest, dirs, g, t, sin, cos)
         == (if g == Open then dirs[3 * i] * ExplosionRadius + sin(t * 0.5 + ir) * 2.0
             else rest[3 * i] + sin(t * 2.0 + ir) * 0.05)
      && Target(3 * i + 1, rest, dirs, g, t, sin, cos)
         == (if g == Open then dirs[3 * i + 1] * ExplosionRadius * 0.5 + cos(t * 0.3 + ir) * 2.0
             else rest[3 * i + 1] + cos(t * 3.0 + ir) * 0.05)
      && Target(3 * i + 2, rest, dirs, g, t, sin, cos)
         == (if g == Open then dirs[3 * i + 2] * ExplosionRadius + sin(t * 0.5 + ir * 0.5) * 2.0
             else rest[3 * i + 2] + sin(t * 2.0 + ir) * 0.05)
  {
    assert (3 * i) / 3 == i && (3 * i) % 3 == 0;
    assert (3 * i + 1) / 3 == i && (3 * i + 1) % 3 == 1;
    assert (3 * i + 2) / 3 == i && (3 * i + 2) % 3 == 2;
  }

  /** A frame with delta = 0 leaves every position where it was. */
  lemma FrozenFrame(current: seq<real>, rest: seq<real>, dirs: seq<real>, g: Gesture, t: real,
                    sin: real -> real, cos: real -> real)
    requires |current| == |rest| == |dirs|
    ensures FrameBuffer(current, rest, dirs, g, t, 0.0, sin, cos) == current
  {
    var next := FrameBuffer(current, rest, dirs, g, t, 0.0, sin, cos);
    forall k | 0 <= k < |current|
      ensures next[k] == current[k]
    {
      assert 0.0 * Damping(g) == 0.0;
    }
  }

  /** When delta * Damping is at most 1, every new coordinate lies between
      the old one and its target; a coordinate at its target stays there. */
  lemma FrameStaysBetween(current: seq<real>, rest: seq<real>, dirs: seq<real>, g: Gesture, t: real, delta: real,
                          sin: real -> real, cos: real -> real, k: nat)
    requires |current| == |rest| == |dirs| && k < |current|
    requires 0.0 <= delta * Damping(g) <= 1.0
    ensures Between(FrameBuffer(current, rest, dirs, g, t, delta, sin, cos)[k],
                    current[k], Target(k, rest, dirs, g, t, sin, cos))
  {
    ApproachBetween(current[k], Target(k, rest, dirs, g, t, sin, cos), delta * Damping(g));
  }

  /** The points object: the four buffers and the group's rotation about y. */
  class ParticleField {
    var positions: array<real>
    var originalPositions: array<real>
    var colors: array<real>
    var randoms: array<real>
    var rotationY: real

    ghost predicate Valid()
      reads this
    {
      && positions.Length == BufferLength
      && originalPositions.Length == BufferLength
      && colors.Length == BufferLength
      && randoms.Length == BufferLength
      && positions != originalPositions && positions != colors && positions != randoms
    }

    /** The field for the first theme, not yet rotated. */
    constructor (secondary: Vec3, primary: Vec3, draws: seq<real>, cos: real -> real, sin: real -> real)
      requires |draws| == DrawCount
      ensures Valid()
      ensures positions[..] == RestBuffer(draws, cos, sin) && originalPositions[..] == RestBuffer(draws, cos, sin)
      ensures colors[..] == ColorBuffer(draws, secondary, primary) && randoms[..] == DirectionBuffer(draws)
      ensures rotationY == 0.0
    {
      var pos, originalPos, cols, rands := Build(secondary, primary, draws, cos, sin);
      positions, originalPositions, colors, randoms := pos, originalPos, cols, rands;
      rotationY := 0.0;
    }

    /** A theme change: all four buffers are regenerated; the rotation stays. */
    method Rebuild(secondary: Vec3, primary: Vec3, draws: seq<real>, cos: real -> real, sin: real -> real)
      requires |draws| == DrawCount
      modifies this
      ensures Valid()
      ensures fresh(positions) && fresh(originalPositions) && fresh(colors) && fresh(randoms)
      ensures positions[..] == RestBuffer(draws, cos, sin) && originalPositions[..] == RestBuffer(draws, cos, sin)
      ensures colors[..] == ColorBuffer(draws, secondary, primary) && randoms[..] == DirectionBuffer(draws)
      ensures rotationY == old(rotationY)
    {
      positions, originalPositions, colors, randoms := Build(secondary, primary, draws, cos, sin);
    }

    /** One rendered frame: every particle's three coordinates are stepped
        toward their targets, and the group spins. */
    method Frame(g: Gesture, t: real, delta: real, sin: real -> real, cos: real -> real)
      requires Valid()
      modifies positions, this`rotationY
      ensures Valid()
      ensures positions[..] == FrameBuffer(old(positions[..]), originalPositions[..], randoms[..], g, t, delta, sin, cos)
      ensures rotationY == old(rotationY) + delta * SpinRate(g)
    {
      ghost var before, rest, dirs := positions[..], originalPositions[..], randoms[..];
      ghost var next := FrameBuffer(before, rest, dirs, g, t, delta, sin, cos);
      var i := 0;
      while i < ParticleCount
        invariant 0 <= i <= ParticleCount
        invariant rotationY == old(rotationY)
        invariant Stepped(positions[..], before, next, 3 * i)
      {
        ghost var prev := positions[..];
        var x, y, z := StepParticle(i, g, t, delta, sin, cos);
        StepExtends(prev, positions[..], before, next, rest, dirs, g, t, delta, sin, cos, i, x, y, z);
        i := i + 1;
      }
      if g == Open {
        rotationY := rotationY + delta * 0.05;
      } else {
        rotationY := rotationY + delta * 0.1;
      }
    }

    /** The body of the frame loop for particle i: read its three coordinates,
        compute their targets, step each by delta * damping and write them back. */
    method StepParticle(i: nat, g: Gesture, t: real, delta: real, sin: real -> real, cos: real -> real)
      returns (cx: real, cy: real, cz: real)
      requires Valid() && i < ParticleCount
      modifies positions
      ensures var before, rest, dirs, f := old(positions[..]), originalPositions[..], randoms[..], delta * Damping(g);
        && cx == Approach(before[3 * i], Target(3 * i, rest, dirs, g, t, sin, cos), f)
        && cy == Approach(before[3 * i + 1], Target(3 * i + 1, rest, dirs, g, t, sin, cos), f)
        && cz == Approach(before[3 * i + 2], Target(3 * i + 2, rest, dirs, g, t, sin, cos), f)
      ensures positions[..] == old(positions[..])[3 * i := cx][3 * i + 1 := cy][3 * i + 2 := cz]
    {
      var isExploding := g == Open;
      var damping := if isExploding then 2.0 else 4.0;
      var ix, iy, iz := i * 3, i * 3 + 1, i * 3 + 2;
      cx, cy, cz := positions[ix], positions[iy], positions[iz];
      var tx, ty, tz;
      if isExploding {
        tx := randoms[ix] * ExplosionRadius + sin(t * 0.5 + i as real) * 2.0;
        ty := randoms[iy] * ExplosionRadius * 0.5 + cos(t * 0.3 + i as real) * 2.0;
        tz := randoms[iz] * ExplosionRadius + sin(t * 0.5 + (i as real) * 0.5) * 2.0;
      } else {
        tx := originalPositions[ix];
        ty := originalPositions[iy];
        tz := originalPositions[iz];
        tx := tx + sin(t * 2.0 + i as real) * 0.05;
        ty := ty + cos(t * 3.0 + i as real) * 0.05;
        tz := tz + sin(t * 2.0 + i as real) * 0.05;
      }
      assert tx == Target(3 * i, originalPositions[..], randoms[..], g, t, sin, cos)
          && ty == Target(3 * i + 1, originalPositions[..], randoms[..], g, t, sin, cos)
          && tz == Target(3 * i + 2, originalPositions[..], randoms[..], g, t, sin, cos) by {
        TargetsOf(originalPositions[..], randoms[..], g, t, sin, cos, i);
      }
      var moveSpeed := delta * damping;
      assert moveSpeed == delta * Damping(g);
      // c += (t - c) * moveSpeed on each axis
      cx := Approach(cx, tx, moveSpeed);
      cy := Approach(cy, ty, moveSpeed);
      cz := Approach(cz, tz, moveSpeed);
      positions[ix], positions[iy], positions[iz] := cx, cy, cz;
    }
  }

  /** The first n coordinates of pos hold their new values, the rest their old ones. */
  ghost predicate Stepped(pos: seq<real>, before: seq<real>, next: seq<real>, n: nat)
  {
    && n <= |pos| == |before| == |next|
    && (forall k :: 0 <= k < n ==> pos[k] == next[k])
    && (forall k :: n <= k < |pos| ==> pos[k] == before[k])
  }

  /** Writing the new values of the next three coordinates extends the stepped prefix by three. */
  lemma SteppedGrows(p0: seq<real>, p1: seq<real>, before: seq<real>, next: seq<real>, n: nat, a: real, b: real, c: real)
    requires Stepped(p0, before, next, n) && n + 3 <= |p0|
    requires p1 == p0[n := a][n + 1 := b][n + 2 := c]
    requires a == next[n] && b == next[n + 1] && c == next[n + 2]
    ensures Stepped(p1, before, next, n + 3)
  {
  }

  /** One pass of the frame loop extends the stepped prefix: the three
      coordinates it writes are the next three of FrameBuffer. */
  lemma StepExtends(prev: seq<real>, p1: seq<real>, before: seq<real>, next: seq<real>, rest: seq<real>, dirs: seq<real>,
                    g: Gesture, t: real, delta: real, sin: real -> real, cos: real -> real, i: nat, cx: real, cy: real, cz: real)
    requires |before| == |rest| == |dirs| == BufferLength && i < ParticleCount
    requires next == FrameBuffer(before, rest, dirs, g, t, delta, sin, cos)
    requires Stepped(prev, before, next, 3 * i)
    requires cx == Approach(prev[3 * i], Target(3 * i, rest, dirs, g, t, sin, cos), delta * Damping(g))
    requires cy == Approach(prev[3 * i + 1], Target(3 * i + 1, rest, dirs, g, t, sin, cos), delta * Damping(g))
    requires cz == Approach(prev[3 * i + 2], Target(3 * i + 2, rest, dirs, g, t, sin, cos), delta * Damping(g))
    requires p1 == prev[3 * i := cx][3 * i + 1 := cy][3 * i + 2 := cz]
    ensures Stepped(p1, before, next, 3 * i + 3)
  {
    assert prev[3 * i] == before[3 * i] && prev[3 * i + 1] == before[3 * i + 1] && prev[3 * i + 2] == before[3 * i + 2];
    SteppedGrows(prev, p1, before, next, 3 * i, cx, cy, cz);
  }

  /** The buffers for one theme: the spiral positions (twice: the working
      copy and the rest copy), the colours and the explosion directions,
      filled particle by particle. */
  method Build(secondary: Vec3, primary: Vec3, draws: seq<real>, cos: real -> real, sin: real -> real)
    returns (pos: array<real>, originalPos: array<real>, cols: array<real>, rands: array<real>)
    requires |draws| == DrawCount
    ensures fresh(pos) && fresh(originalPos) && fresh(cols) && fresh(rands)
    ensures pos != originalPos && pos != cols && pos != rands
    ensures pos.Length == originalPos.Length == cols.Length == rands.Length == BufferLength
    ensures pos[..] == RestBuffer(draws, cos, sin) && originalPos[..] == RestBuffer(draws, cos, sin)
    ensures cols[..] == ColorBuffer(draws, secondary, primary) && rands[..] == DirectionBuffer(draws)
  {
    pos := new real[BufferLength];
    originalPos := new real[BufferLength];
    cols := new real[BufferLength];
    rands := new real[BufferLength];
    ghost var restBuf := RestBuffer(draws, cos, sin);
    ghost var colorBuf := ColorBuffer(draws, secondary, primary);
    ghost var dirBuf := DirectionBuffer(draws);
    for i := 0 to ParticleCount
      invariant Filled(pos[..], originalPos[..], cols[..], rands[..], 3 * i, restBuf, colorBuf, dirBuf)
    {
      ghost var pos0, orig0, cols0, rands0 := pos[..], originalPos[..], cols[..], rands[..];
      var v, c, d := FillParticle(i, secondary, primary, draws, cos, sin, pos, originalPos, cols, rands);
      BuffersAt(i, draws, secondary, primary, cos, sin);
      FilledGrows(pos0, orig0, cols0, rands0, pos[..], originalPos[..], cols[..], rands[..], 3 * i, restBuf, colorBuf, dirBuf, v, c, d);
    }
  }

  /** The first n coordinates of the four buffers agree with their specifications. */
  ghost predicate Filled(pos: seq<real>, originalPos: seq<real>, cols: seq<real>, rands: seq<real>, n: nat,
                         restBuf: seq<real>, colorBuf: seq<real>, dirBuf: seq<real>)
  {
    && n <= |pos| == |originalPos| == |cols| == |rands| == |restBuf| == |colorBuf| == |dirBuf|
    && (forall k :: 0 <= k < n ==> pos[k] == restBuf[k] && originalPos[k] == restBuf[k])
    && (forall k :: 0 <= k < n ==> cols[k] == colorBuf[k] && rands[k] == dirBuf[k])
  }

  /** Writing one particle's agreeing coordinates extends the agreeing prefix by three. */
  lemma FilledGrows(pos0: seq<real>, orig0: seq<real>, cols0: seq<real>, rands0: seq<real>,
                    pos1: seq<real>, orig1: seq<real>, cols1: seq<real>, rands1: seq<real>, n: nat,
                    restBuf: seq<real>, colorBuf: seq<real>, dirBuf: seq<real>, v: Vec3, c: Vec3, d: Vec3)
    requires Filled(pos0, orig0, cols0, rands0, n, restBuf, colorBuf, dirBuf) && n + 3 <= |pos0|
    requires pos1 == pos0[n := v.x][n + 1 := v.y][n + 2 := v.z]
    requires orig1 == orig0[n := v.x][n + 1 := v.y][n + 2 := v.z]
    requires cols1 == cols0[n := c.x][n + 1 := c.y][n + 2 := c.z]
    requires rands1 == rands0[n := d.x][n + 1 := d.y][n + 2 := d.z]
    requires restBuf[n] == v.x && restBuf[n + 1] == v.y && restBuf[n + 2] == v.z
    requires colorBuf[n] == c.x && colorBuf[n + 1] == c.y && colorBuf[n + 2] == c.z
    requires dirBuf[n] == d.x && dirBuf[n + 1] == d.y && dirBuf[n + 2] == d.z
    ensures Filled(pos1, orig1, cols1, rands1, n + 3, restBuf, colorBuf, dirBuf)
  {
  }

  /** One pass of the fill loop: particle i's spiral point, colour and
      direction are written at indices 3i .. 3i + 2 of the four buffers. */
  method FillParticle(i: nat, secondary: Vec3, primary: Vec3, draws: seq<real>, cos: real -> real, sin: real -> real,
                      pos: array<real>, originalPos: array<real>, cols: array<real>, rands: array<real>)
    returns (v: Vec3, c: Vec3, d: Vec3)
    requires |draws| == DrawCount && i < ParticleCount
    requires pos.Length == originalPos.Length == cols.Length == rands.Length == BufferLength
    requires pos != originalPos && pos != cols && pos != rands
    requires originalPos != cols && originalPos != rands && cols != rands
    modifies pos, originalPos, cols, rands
    ensures v == RestPoint(i, draws, cos, sin) && c == ParticleColor(i, draws, secondary, primary) && d == Direction(i, draws)
    ensures pos[..] == old(pos[..])[3 * i := v.x][3 * i + 1 := v.y][3 * i + 2 := v.z]
    ensures originalPos[..] == old(originalPos[..])[3 * i := v.x][3 * i + 1 := v.y][3 * i + 2 := v.z]
    ensures cols[..] == old(cols[..])[3 * i := c.x][3 * i + 1 := c.y][3 * i + 2 := c.z]
    ensures rands[..] == old(rands[..])[3 * i := d.x][3 * i + 1 := d.y][3 * i + 2 := d.z]
  {
    v := FillPoint(i, draws, cos, sin, pos, originalPos);
    c := FillColor(i, secondary, primary, draws, cols);
    d := FillDirection(i, draws, rands);
  }

  /** One pass of the fill loop, first part: particle i's spiral point is
      written at indices 3i .. 3i + 2 of the working and the rest buffer. */
  method FillPoint(i: nat, draws: seq<real>, cos: real -> real, sin: real -> real,
                   pos: array<real>, originalPos: array<real>) returns (v: Vec3)
    requires |draws| == DrawCount && i < ParticleCount
    requires pos.Length == originalPos.Length == BufferLength && pos != originalPos
    modifies pos, originalPos
    ensures v == RestPoint(i, draws, cos, sin)
    ensures && pos[..] == old(pos[..])[3 * i := v.x][3 * i + 1 := v.y][3 * i + 2 := v.z]
      && originalPos[..] == old(originalPos[..])[3 * i := v.x][3 * i + 1 := v.y][3 * i + 2 := v.z]
  {
    var p := Fraction(i);
    var h := p * TreeHeight - TreeHeight / 2.0;
    var r := (1.0 - p) * TreeRadius;
    var angle := p * 50.0 + draws[i * 8] * 0.5;
    var variance := 0.5;
    var x := cos(angle) * r + (draws[i * 8 + 1] - 0.5) * variance;
    var y := h + (draws[i * 8 + 2] - 0.5) * variance;
    var z := sin(angle) * r + (draws[i * 8 + 3] - 0.5) * variance;
    assert RestPoint(i, draws, cos, sin) == Vec3(x, y, z) by {
      assert angle == Fraction(i) * 50.0 + Draw(draws, i, 0) * 0.5;
      assert r == SpiralRadius(i) && h == SpiralHeight(i);
      assert x == cos(angle) * SpiralRadius(i) + Jitter(Draw(draws, i, 1));
      assert y == SpiralHeight(i) + Jitter(Draw(draws, i, 2));
      assert z == sin(angle) * SpiralRadius(i) + Jitter(Draw(draws, i, 3));
    }
    pos[i * 3], pos[i * 3 + 1], pos[i * 3 + 2] := x, y, z;
    originalPos[i * 3], originalPos[i * 3 + 1], originalPos[i * 3 + 2] := x, y, z;
    v := Vec3(x, y, z);
  }

  /** Second part: particle i's colour, mixed from secondary toward primary. */
  method FillColor(i: nat, secondary: Vec3, primary: Vec3, draws: seq<real>, cols: array<real>) returns (c: Vec3)
    requires |draws| == DrawCount && i < ParticleCount && cols.Length == BufferLength
    modifies cols
    ensures c == ParticleColor(i, draws, secondary, primary)
    ensures cols[..] == old(cols[..])[3 * i := c.x][3 * i + 1 := c.y][3 * i + 2 := c.z]
  {
    var p := Fraction(i);
    var mix := draws[i * 8 + 4] * p + 0.2;
    var rx := secondary.x + (primary.x - secondary.x) * mix;
    var ry := secondary.y + (primary.y - secondary.y) * mix;
    var rz := secondary.z + (primary.z - secondary.z) * mix;
    assert ParticleColor(i, draws, secondary, primary) == Vec3(rx, ry, rz) by {
      assert mix == MixFactor(i, draws);
      assert rx == Approach(secondary.x, primary.x, mix);
      assert ry == Approach(secondary.y, primary.y, mix);
      assert rz == Approach(secondary.z, primary.z, mix);
    }
    cols[i * 3], cols[i * 3 + 1], cols[i * 3 + 2] := rx, ry, rz;
    c := Vec3(rx, ry, rz);
  }

  /** Third part: particle i's explosion direction. */
  method FillDirection(i: nat, draws: seq<real>, rands: array<real>) returns (d: Vec3)
    requires |draws| == DrawCount && i < ParticleCount && rands.Length == BufferLength
    modifies rands
    ensures d == Direction(i, draws)
    ensures rands[..] == old(rands[..])[3 * i := d.x][3 * i + 1 := d.y][3 * i + 2 := d.z]
  {
    rands[i * 3] := (draws[i * 8 + 5] - 0.5) * 2.0;
    rands[i * 3 + 1] := (draws[i * 8 + 6] - 0.5) * 2.0;
    rands[i * 3 + 2] := (draws[i * 8 + 7] - 0.5) * 2.0;
    d := Vec3(rands[i * 3], rands[i * 3 + 1], rands[i * 3 + 2]);
  }
}
