/** The per-frame formulas of `ParticleSystem`: the exponential easing of the
    morph factor toward the app state's target, and the transform of one
    particle (interpolated position plus floating offset, spin, pulsing scale). */
module Animation {
  import opened JsMath
  import opened Types
  import Constants

  function Abs(x: real): (r: real)
    ensures r >= 0.0 && (r == x || r == -x)
  {
    if x >= 0.0 then x else -x
  }

  // ---------------------------------------------------------------- morph factor

  /** `appState === AppState.TREE_SHAPE ? 1 : 0`. */
  function TargetFactor(s: AppState): (r: real)
    ensures r == 1.0 <==> s.TreeShape?
    ensures r == 0.0 <==> s.Scattered?
  {
    if s.TreeShape? then 1.0 else 0.0
  }

  /** `delta * ANIMATION_SPEED`: the lerp weight of one frame. */
  function MorphRate(delta: real): real
  {
    delta * Constants.ANIMATION_SPEED
  }

  /** The weight is a proper lerp weight exactly for frames of at most 5/9 s. */
  lemma MorphRateUnit(delta: real)
    ensures 0.0 <= MorphRate(delta) <= 1.0 <==> 0.0 <= delta <= 5.0 / 9.0
  {
  }

  /** One frame of easing: `lerp(f, target, k)`. */
  function MorphStep(f: real, target: real, k: real): real
  {
    Lerp(f, target, k)
  }

  /** A single step stays in [0, 1], moves toward the target without passing it,
      and shrinks the distance to the target by exactly the factor 1 - k. */
  lemma MorphStepContracts(f: real, target: real, k: real)
    requires 0.0 <= f <= 1.0
    requires target == 0.0 || target == 1.0
    requires 0.0 <= k <= 1.0
    ensures 0.0 <= MorphStep(f, target, k) <= 1.0
    ensures Abs(MorphStep(f, target, k) - target) == (1.0 - k) * Abs(f - target)
    ensures target == 1.0 ==> f <= MorphStep(f, target, k)
    ensures target == 0.0 ==> MorphStep(f, target, k) <= f
  {
    var f' := MorphStep(f, target, k);
    assert f' - target == (1.0 - k) * (f - target);
    NonNegProduct(1.0 - k, 1.0 - f);
    NonNegProduct(1.0 - k, f);
    NonNegProduct(k, 1.0 - f);
    NonNegProduct(k, f);
    if f >= target {
      assert Abs(f' - target) == (1.0 - k) * (f - target);
    } else {
      assert Abs(f' - target) == (1.0 - k) * (target - f);
    }
  }

  /** Whatever the target, one step moves the factor by at most `k` times its
      distance to the target, so toggling the app state never makes it jump. */
  lemma MorphStepContinuous(f: real, target: real, k: real)
    requires 0.0 <= f <= 1.0
    requires target == 0.0 || target == 1.0
    requires 0.0 <= k
    ensures Abs(MorphStep(f, target, k) - f) == k * Abs(target - f)
    ensures Abs(MorphStep(f, target, k) - f) <= k
  {
    var step := MorphStep(f, target, k) - f;
    assert step == (target - f) * k;
    NonNegProduct(k, target - f);
    NonNegProduct(k, f - target);
    NonNegProduct(k, 1.0 - Abs(target - f));
  }

  /** The factor the source computes with a frame weight above 1 (a frame
      longer than 5/9 s): a factor not at its target passes it and leaves
      [0, 1]. A factor already at its target stays there. */
  lemma MorphStepOvershoots(f: real, target: real, k: real)
    requires 0.0 <= f <= 1.0
    requires target == 0.0 || target == 1.0
    requires f != target
    requires k > 1.0
    ensures target == 1.0 ==> MorphStep(f, target, k) > 1.0
    ensures target == 0.0 ==> MorphStep(f, target, k) < 0.0
  {
    assert MorphStep(f, target, k) - target == (1.0 - k) * (f - target);
    if target == 1.0 {
      assert (k - 1.0) * (1.0 - f) > 0.0;
    } else {
      assert (k - 1.0) * f > 0.0;
    }
  }

  /** The factor after `n` frames with the same target and frame weight. */
  function MorphAfter(f: real, target: real, k: real, n: nat): real
  {
    if n == 0 then f else MorphStep(MorphAfter(f, target, k, n - 1), target, k)
  }

  function Pow(q: real, n: nat): real
  {
    if n == 0 then 1.0 else q * Pow(q, n - 1)
  }

  /** After `n` frames the distance to the target is (1 - k)^n times the initial one. */
  lemma {:induction false} MorphAfterDistance(f: real, target: real, k: real, n: nat)
    ensures MorphAfter(f, target, k, n) - target == Pow(1.0 - k, n) * (f - target)
  {
    if n > 0 {
      MorphAfterDistance(f, target, k, n - 1);
      var g := MorphAfter(f, target, k, n - 1);
      assert MorphStep(g, target, k) - target == (1.0 - k) * (g - target) by {
        LerpDistance(g, target, k);
      }
      Associate(1.0 - k, Pow(1.0 - k, n - 1), f - target);
    }
  }

  lemma LerpDistance(g: real, target: real, k: real)
    ensures Lerp(g, target, k) - target == (1.0 - k) * (g - target)
  {
  }

  lemma Associate(a: real, b: real, c: real)
    ensures a * (b * c) == (a * b) * c
  {
  }

  /** Started in [0, 1] with a fixed target, the factor stays in [0, 1] and
      moves monotonically toward the target, frame after frame. */
  lemma {:induction false} MorphAfterMonotone(f: real, target: real, k: real, n: nat)
    requires 0.0 <= f <= 1.0
    requires target == 0.0 || target == 1.0
    requires 0.0 <= k <= 1.0
    ensures 0.0 <= MorphAfter(f, target, k, n) <= 1.0
    ensures target == 1.0 ==> MorphAfter(f, target, k, n) <= MorphAfter(f, target, k, n + 1)
    ensures target == 0.0 ==> MorphAfter(f, target, k, n + 1) <= MorphAfter(f, target, k, n)
  {
    if n > 0 {
      MorphAfterMonotone(f, target, k, n - 1);
      MorphStepContracts(MorphAfter(f, target, k, n - 1), target, k);
    }
    MorphStepContracts(MorphAfter(f, target, k, n), target, k);
  }

  /** Bernoulli's bound on the easing: (1 - k)^n · (1 + n·k) <= 1. */
  lemma {:induction false} PowBound(k: real, n: nat)
    requires 0.0 < k <= 1.0
    ensures 0.0 <= Pow(1.0 - k, n) <= 1.0
    ensures Pow(1.0 - k, n) * (1.0 + n as real * k) <= 1.0
  {
    if n > 0 {
      PowBound(k, n - 1);
      var p, b := Pow(1.0 - k, n - 1), 1.0 + (n - 1) as real * k;
      PowStep(k, p, b);
      assert 1.0 + n as real * k == b + k;
    }
  }

  /** The inductive step of `PowBound`, on plain reals. */
  lemma PowStep(k: real, p: real, b: real)
    requires 0.0 < k <= 1.0
    requires 0.0 <= p <= 1.0 && b >= 1.0 && p * b <= 1.0
    ensures 0.0 <= (1.0 - k) * p <= 1.0
    ensures ((1.0 - k) * p) * (b + k) <= 1.0
  {
    var q := 1.0 - k;
    NonNegProduct(q, p);
    NonNegProduct(q, 1.0 - p);
    NonNegProduct(q, 1.0 - p * b);
    NonNegProduct(q * k, 1.0 - p);
    assert (q * p) * (b + k) == q * (p * b) + (q * k) * p;
    assert q * (p * b) <= q;
    assert (q * k) * p <= q * k;
    assert q + q * k == 1.0 - k * k;
  }

  /** With a frame weight k in (0, 1] and a start in [0, 1], the factor gets
      within 0.001 of its target after any number of frames n with
      n·k >= 1000. */
  lemma MorphSettles(f: real, target: real, k: real, n: nat)
    requires 0.0 <= f <= 1.0
    requires target == 0.0 || target == 1.0
    requires 0.0 < k <= 1.0
    requires n as real * k >= 1000.0
    ensures Abs(MorphAfter(f, target, k, n) - target) < 0.001
  {
    PowSmall(k, n);
    MorphAfterDistance(f, target, k, n);
    ScaledDistance(MorphAfter(f, target, k, n), target, Pow(1.0 - k, n), f);
  }

  /** (1 - k)^n < 0.001 once n·k >= 1000. */
  lemma PowSmall(k: real, n: nat)
    requires 0.0 < k <= 1.0
    requires n as real * k >= 1000.0
    ensures 0.0 <= Pow(1.0 - k, n) < 0.001
  {
    PowBound(k, n);
    SmallPower(Pow(1.0 - k, n), n as real * k);
  }

  lemma SmallPower(p: real, nk: real)
    requires 0.0 <= p && nk >= 1000.0 && p * (1.0 + nk) <= 1.0
    ensures p < 0.001
  {
    NonNegProduct(p, nk - 1000.0);
    assert p * 1001.0 <= 1.0;
  }

  lemma ScaledDistance(g: real, target: real, p: real, f: real)
    requires g - target == p * (f - target)
    requires 0.0 <= p < 0.001 && 0.0 <= f <= 1.0 && 0.0 <= target <= 1.0
    ensures Abs(g - target) < 0.001
  {
    var d := f - target;
    assert -1.0 <= d <= 1.0;
    NonNegProduct(p, 1.0 - d);
    NonNegProduct(p, 1.0 + d);
    assert -p <= p * d <= p;
  }

  // ---------------------------------------------------------------- one particle

  /** `lerp(1.5, 0.05, f)`: the floating amplitude. */
  function NoiseAmp(f: real): real
  {
    Lerp(1.5, 0.05, f)
  }

  /** `lerp(0.5, 0.05, f)`: the spin rate. */
  function RotSpeed(f: real): real
  {
    Lerp(0.5, 0.05, f)
  }

  /** Both rates fall from their scattered value to their assembled value as the
      factor grows through [0, 1]. */
  lemma RatesDecrease(f: real, f': real)
    requires 0.0 <= f <= f' <= 1.0
    ensures 0.05 <= NoiseAmp(f') <= NoiseAmp(f) <= 1.5
    ensures 0.05 <= RotSpeed(f') <= RotSpeed(f) <= 0.5
  {
    LerpBetween(1.5, 0.05, f, f');
    LerpBetween(0.5, 0.05, f, f');
  }

  /** The phase angles of the horizontal float, the vertical float and the pulse. */
  function FloatXAngle(time: real, p: Particle): real { time * p.speed * 0.5 + p.phase }
  function FloatYAngle(time: real, p: Particle): real { time * p.speed + p.phase }
  function PulseAngle(time: real, p: Particle): real { time * 3.0 + p.phase }

  /** `Math.cos(time * speed * 0.5 + phase) * noiseAmp * 0.5`. */
  function FloatX(m: MathLib, time: real, p: Particle, amp: real): real
  {
    Cos(m, FloatXAngle(time, p)) * amp * 0.5
  }

  /** `Math.sin(time * speed + phase) * noiseAmp`. */
  function FloatY(m: MathLib, time: real, p: Particle, amp: real): real
  {
    Sin(m, FloatYAngle(time, p)) * amp
  }

  /** The floating offset is at most the amplitude vertically and half of it
      horizontally. */
  lemma FloatBounds(m: MathLib, time: real, p: Particle, amp: real)
    requires TrigBounded(m)
    requires amp >= 0.0
    ensures Abs(FloatY(m, time, p, amp)) <= amp
    ensures Abs(FloatX(m, time, p, amp)) <= amp / 2.0
  {
    assert Abs(FloatY(m, time, p, amp)) <= amp by {
      UnitTimes(Sin(m, FloatYAngle(time, p)), amp);
    }
    assert Abs(FloatX(m, time, p, amp)) <= amp / 2.0 by {
      UnitTimes(Cos(m, FloatXAngle(time, p)), amp);
    }
  }

  /** A value in [-1, 1] times a non-negative amplitude is at most that amplitude. */
  lemma UnitTimes(s: real, a: real)
    requires -1.0 <= s <= 1.0 && a >= 0.0
    ensures Abs(s * a) <= a
    ensures Abs(s * a * 0.5) <= a / 2.0
  {
    NonNegProduct(1.0 - s, a);
    NonNegProduct(1.0 + s, a);
  }

  /** `isOrnament ? 0.1 : 0.01`, ornaments being spheres and cubes. */
  function PulseBase(g: Geometry): (pb: real)
    ensures pb == 0.1 <==> g.Sphere? || g.Cube?
    ensures pb == 0.01 <==> g.Box? || g.Tetra?
  {
    if g.Sphere? || g.Cube? then 0.1 else 0.01
  }

  /** `1 + Math.sin(time * 3 + phase) * pulseBase`. */
  function Pulse(m: MathLib, time: real, p: Particle, pb: real): real
  {
    1.0 + Sin(m, PulseAngle(time, p)) * pb
  }

  /** The pulse stays within `pulseBase` of 1. */
  lemma PulseBounds(m: MathLib, time: real, p: Particle, pb: real)
    requires TrigBounded(m)
    requires pb >= 0.0
    ensures 1.0 - pb <= Pulse(m, time, p, pb) <= 1.0 + pb
  {
    UnitTimes(Sin(m, PulseAngle(time, p)), pb);
  }

  /** `dummy.position`: the interpolated position plus the floating offset. */
  function ParticlePosition(m: MathLib, p: Particle, f: real, time: real): Vec3
  {
    var amp := NoiseAmp(f);
    Add(LerpVectors(p.scatterPosition, p.treePosition, f), Vec3(FloatX(m, time, p, amp), FloatY(m, time, p, amp), 0.0))
  }

  /** `dummy.rotation`: the base rotation with spin on X and Y. */
  function ParticleRotation(p: Particle, f: real, time: real): Vec3
  {
    var spin := time * RotSpeed(f);
    Vec3(p.rotation.x + spin, p.rotation.y + spin, p.rotation.z)
  }

  /** `dummy.scale`: the base scale times the layer multiplier times the pulse. */
  function ParticleScale(m: MathLib, p: Particle, time: real, g: Geometry, scaleMult: real): real
  {
    p.scale * scaleMult * Pulse(m, time, p, PulseBase(g))
  }

  /** The transform one frame writes for particle `p`. */
  function ParticleTransform(m: MathLib, p: Particle, f: real, time: real, g: Geometry, scaleMult: real): Transform
  {
    Transform(ParticlePosition(m, p, f, time), ParticleRotation(p, f, time), ParticleScale(m, p, time, g, scaleMult))
  }

  /** At factor 0 a particle floats around its scatter point with amplitude 1.5,
      at factor 1 around its tree point with amplitude 0.05; the float never
      moves it along Z. */
  lemma PositionEndpoints(m: MathLib, p: Particle, time: real)
    ensures ParticlePosition(m, p, 0.0, time)
         == Add(p.scatterPosition, Vec3(FloatX(m, time, p, 1.5), FloatY(m, time, p, 1.5), 0.0))
    ensures ParticlePosition(m, p, 1.0, time)
         == Add(p.treePosition, Vec3(FloatX(m, time, p, 0.05), FloatY(m, time, p, 0.05), 0.0))
  {
  }

  /** For a factor in [0, 1]: the position is the lerp of the two targets,
      displaced by at most the amplitude (vertically) and half of it
      (horizontally) and not at all along Z; the rotation spins X and Y by
      `time * s` with s in [0.05, 0.5] and keeps Z; the scale is the base scale
      times the multiplier times a pulse within `pulseBase` of 1. */
  lemma TransformBounds(m: MathLib, p: Particle, f: real, time: real, g: Geometry, scaleMult: real)
    requires TrigBounded(m)
    requires 0.0 <= f <= 1.0
    ensures var t, c := ParticleTransform(m, p, f, time, g, scaleMult), LerpVectors(p.scatterPosition, p.treePosition, f);
      Abs(t.position.x - c.x) <= NoiseAmp(f) / 2.0 &&
      Abs(t.position.y - c.y) <= NoiseAmp(f) &&
      t.position.z == c.z
    ensures var t := ParticleTransform(m, p, f, time, g, scaleMult);
      t.rotation.z == p.rotation.z &&
      t.rotation.x - p.rotation.x == t.rotation.y - p.rotation.y == time * RotSpeed(f) &&
      0.05 <= RotSpeed(f) <= 0.5
    ensures var t, pb, pulse := ParticleTransform(m, p, f, time, g, scaleMult), PulseBase(g), Pulse(m, time, p, PulseBase(g));
      1.0 - pb <= pulse <= 1.0 + pb && t.scale == p.scale * scaleMult * pulse
  {
    RatesDecrease(f, f);
    FloatBounds(m, time, p, NoiseAmp(f));
    PulseBounds(m, time, p, PulseBase(g));
  }
}
