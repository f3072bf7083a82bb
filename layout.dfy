/** The layout generator of `ParticleSystem`: for each index of a layer it builds
    one particle with a tree position (cylinder volume or golden-angle cone),
    per-axis jitter, a point in the scatter sphere and bounded random attributes.

    `Math.random()` is an infinite stream `rand`; the calls are numbered in the
    order the generator makes them, so particle `i` reads the block of
    `DrawsPerParticle` draws that starts at `i * DrawsPerParticle`. */
module Layout {
  import opened JsMath
  import opened Types

  /** Draws made for the tree position before the jitter: radius and angle for
      CYLINDER, the volume factor for CONE. */
  function TreeDraws(d: Distribution): nat
  {
    if d == Cylinder then 2 else 1
  }

  /** All draws of one particle: the tree draws, three for jitter, three for the
      scatter point, three for the rotation, then scale, speed and phase. */
  function DrawsPerParticle(d: Distribution): nat
  {
    TreeDraws(d) + 12
  }

  /** The `j`-th `Math.random()` call made for particle `i`. */
  function Draw(rand: nat -> real, d: Distribution, i: nat, j: nat): real
  {
    rand(i * DrawsPerParticle(d) + j)
  }

  // ---------------------------------------------------------------- height

  /** `t = i / count`: the particle's normalised index. */
  function NormalizedIndex(i: nat, count: nat): (t: real)
    requires i < count
    ensures 0.0 <= t < 1.0
    ensures t * count as real == i as real
  {
    i as real / count as real
  }

  /** The tree height of both shape families: `t * height - height / 2 + yOffset`. */
  function LayerHeight(t: real, height: real, yOffset: real): real
  {
    t * height - height / 2.0 + yOffset
  }

  /** Heights before jitter lie in the half-open band [yOffset - height/2,
      yOffset + height/2): the first particle's sits exactly on the bottom, the
      last one's `height / count` below the top. */
  lemma HeightRange(i: nat, count: nat, height: real, yOffset: real)
    requires i < count
    requires height > 0.0
    ensures yOffset - height / 2.0 <= LayerHeight(NormalizedIndex(i, count), height, yOffset)
    ensures LayerHeight(NormalizedIndex(i, count), height, yOffset) < yOffset + height / 2.0
    ensures i == 0 ==> LayerHeight(NormalizedIndex(i, count), height, yOffset) == yOffset - height / 2.0
    ensures i == count - 1 ==>
      LayerHeight(NormalizedIndex(i, count), height, yOffset) == yOffset + height / 2.0 - height / count as real
  {
    var t := NormalizedIndex(i, count);
    ProductBand(t, height);
    if i == count - 1 {
      LastIndexHeight(count, height);
    }
  }

  /** t·h lies in [0, h) for t in [0, 1) and h > 0. */
  lemma ProductBand(t: real, h: real)
    requires 0.0 <= t < 1.0 && h > 0.0
    ensures 0.0 <= t * h < h
  {
    NonNegProduct(t, h);
    assert (1.0 - t) * h > 0.0;
  }

  /** ((count - 1) / count)·h = h - h / count. */
  lemma LastIndexHeight(count: nat, h: real)
    requires count > 0
    ensures ((count - 1) as real / count as real) * h == h - h / count as real
  {
    var c := count as real;
    assert (c - 1.0) / c == 1.0 - 1.0 / c;
    assert (1.0 - 1.0 / c) * h == h - (1.0 / c) * h;
    assert (1.0 / c) * h == h / c;
  }

  /** Before jitter, particles are laid out bottom to top by index: the height
      is strictly increasing in `i`. The vertical jitter, far larger than the
      step, breaks this order in the generated tree positions. */
  lemma HeightStrictlyIncreasing(i: nat, j: nat, count: nat, height: real, yOffset: real)
    requires i < j < count
    requires height > 0.0
    ensures LayerHeight(NormalizedIndex(i, count), height, yOffset)
          < LayerHeight(NormalizedIndex(j, count), height, yOffset)
  {
    var ti, tj := NormalizedIndex(i, count), NormalizedIndex(j, count);
    assert tj - ti == (j - i) as real / count as real;
    assert (tj - ti) * height > 0.0;
  }

  // ---------------------------------------------------------------- CYLINDER

  /** `radius * Math.sqrt(u)`: distance from the axis, uniform over the disk. */
  function CylinderRadius(m: MathLib, radius: real, u: real): real
  {
    radius * Sqrt(m, u)
  }

  /** `u * Math.PI * 2`. */
  function CylinderAngle(u: real): real
  {
    u * PI * 2.0
  }

  /** The CYLINDER tree position before jitter. */
  function CylinderTree(m: MathLib, radius: real, height: real, yOffset: real, t: real, u0: real, u1: real): Vec3
  {
    var currentRadius := CylinderRadius(m, radius, u0);
    var angle := CylinderAngle(u1);
    Vec3(Cos(m, angle) * currentRadius, LayerHeight(t, height, yOffset), Sin(m, angle) * currentRadius)
  }

  /** A CYLINDER particle sits at its layer height, on a circle of radius
      `radius * sqrt(u0)` around the axis, which is at most `radius`. */
  lemma CylinderTreeShape(m: MathLib, radius: real, height: real, yOffset: real, t: real, u0: real, u1: real)
    requires SqrtLaw(m) && Pythagorean(m)
    requires radius >= 0.0 && IsUnitDraw(u0) && IsUnitDraw(u1)
    ensures CylinderTree(m, radius, height, yOffset, t, u0, u1).y == LayerHeight(t, height, yOffset)
    ensures HorizontalSquared(CylinderTree(m, radius, height, yOffset, t, u0, u1))
         == CylinderRadius(m, radius, u0) * CylinderRadius(m, radius, u0)
    ensures 0.0 <= CylinderRadius(m, radius, u0) <= radius
    ensures 0.0 <= CylinderAngle(u1) < 2.0 * PI
  {
    var r, a := CylinderRadius(m, radius, u0), CylinderAngle(u1);
    SqrtUnit(m, u0);
    NonNegProduct(radius, Sqrt(m, u0));
    NonNegProduct(radius, 1.0 - Sqrt(m, u0));
    CircleOfRadius(m, a, r);
  }

  /** A point (cos a · r, _, sin a · r) is at squared distance r·r from the axis. */
  lemma CircleOfRadius(m: MathLib, a: real, r: real)
    requires Pythagorean(m)
    ensures (Cos(m, a) * r) * (Cos(m, a) * r) + (Sin(m, a) * r) * (Sin(m, a) * r) == r * r
  {
    assert Sin(m, a) * Sin(m, a) + Cos(m, a) * Cos(m, a) == 1.0;
    UnitCircle(Cos(m, a), Sin(m, a), r);
  }

  /** (c·r)² + (s·r)² = r² whenever c² + s² = 1. */
  lemma UnitCircle(c: real, s: real, r: real)
    requires c * c + s * s == 1.0
    ensures (c * r) * (c * r) + (s * r) * (s * r) == r * r
  {
    assert (c * r) * (c * r) + (s * r) * (s * r) == (c * c + s * s) * (r * r);
  }

  // ---------------------------------------------------------------- CONE

  /** `2 * Math.PI * goldenRatio`: the angle between consecutive cone particles. */
  function AngleIncrement(m: MathLib): real
  {
    2.0 * PI * GoldenRatio(m)
  }

  /** `i * angleIncrement`. */
  function ConeAngle(m: MathLib, i: nat): real
  {
    i as real * AngleIncrement(m)
  }

  /** The cone spiral starts at angle 0 and every step turns by exactly
      2·pi·phi, phi the golden ratio, which is more than one and a half turns. */
  lemma ConeAngleSpacing(m: MathLib, i: nat)
    requires SqrtLaw(m)
    ensures ConeAngle(m, 0) == 0.0
    ensures ConeAngle(m, i + 1) - ConeAngle(m, i) == 2.0 * PI * ((1.0 + Sqrt(m, 5.0)) / 2.0)
    ensures 3.0 * PI < ConeAngle(m, i + 1) - ConeAngle(m, i) < 4.0 * PI
  {
    GoldenRatioIdentity(m);
  }

  /** `0.8 + 0.2 * Math.sqrt(u)`: pushes particles from the shell into the volume. */
  function VolumeFactor(m: MathLib, u: real): real
  {
    0.8 + 0.2 * Sqrt(m, u)
  }

  /** `radius * (1 - t)`: the shell radius of the linear taper. */
  function ShellRadius(radius: real, t: real): real
  {
    radius * (1.0 - t)
  }

  /** `radiusAtHeight * volumeFactor`. */
  function ConeRadius(m: MathLib, radius: real, t: real, u: real): real
  {
    ShellRadius(radius, t) * VolumeFactor(m, u)
  }

  /** The CONE tree position before jitter. */
  function ConeTree(m: MathLib, i: nat, radius: real, height: real, yOffset: real, t: real, u0: real): Vec3
  {
    var finalRadius := ConeRadius(m, radius, t, u0);
    var angle := ConeAngle(m, i);
    Vec3(Cos(m, angle) * finalRadius, LayerHeight(t, height, yOffset), Sin(m, angle) * finalRadius)
  }

  /** A CONE particle sits at its layer height, at angle `ConeAngle(i)`, at a
      distance from the axis between 0.8 and 1 times the shell radius. */
  lemma ConeTreeShape(m: MathLib, i: nat, radius: real, height: real, yOffset: real, t: real, u0: real)
    requires SqrtLaw(m) && Pythagorean(m)
    requires radius >= 0.0 && 0.0 <= t <= 1.0 && IsUnitDraw(u0)
    ensures ConeTree(m, i, radius, height, yOffset, t, u0).y == LayerHeight(t, height, yOffset)
    ensures ConeTree(m, i, radius, height, yOffset, t, u0).x == Cos(m, ConeAngle(m, i)) * ConeRadius(m, radius, t, u0)
    ensures ConeTree(m, i, radius, height, yOffset, t, u0).z == Sin(m, ConeAngle(m, i)) * ConeRadius(m, radius, t, u0)
    ensures HorizontalSquared(ConeTree(m, i, radius, height, yOffset, t, u0))
         == ConeRadius(m, radius, t, u0) * ConeRadius(m, radius, t, u0)
    ensures 0.8 <= VolumeFactor(m, u0) <= 1.0
    ensures 0.8 * ShellRadius(radius, t) <= ConeRadius(m, radius, t, u0) <= ShellRadius(radius, t)
  {
    SqrtUnit(m, u0);
    var shell, vf := ShellRadius(radius, t), VolumeFactor(m, u0);
    NonNegProduct(radius, 1.0 - t);
    NonNegProduct(shell, vf - 0.8);
    NonNegProduct(shell, 1.0 - vf);
    CircleOfRadius(m, ConeAngle(m, i), ConeRadius(m, radius, t, u0));
  }

  /** Going up the cone the shell radius shrinks strictly, from `radius` at the
      first particle. */
  lemma ConeShellTapers(i: nat, j: nat, count: nat, radius: real)
    requires i < j < count
    requires radius > 0.0
    ensures ShellRadius(radius, NormalizedIndex(0, count)) == radius
    ensures ShellRadius(radius, NormalizedIndex(j, count)) < ShellRadius(radius, NormalizedIndex(i, count))
  {
    var ti, tj := NormalizedIndex(i, count), NormalizedIndex(j, count);
    assert tj - ti == (j - i) as real / count as real;
    assert radius * (tj - ti) > 0.0;
  }

  // ---------------------------------------------------------------- jitter

  /** `geometryType === 'box' ? 0.4 : 0.1`. */
  function JitterSize(g: Geometry): (j: real)
    ensures j == 0.4 <==> g == Box
    ensures j == 0.1 <==> g != Box
  {
    if g == Box then 0.4 else 0.1
  }

  /** `(Math.random() - 0.5) * jitter`. */
  function JitterOffset(u: real, jitter: real): real
  {
    (u - 0.5) * jitter
  }

  /** Each jitter offset lies in [-jitter/2, jitter/2). */
  lemma JitterBounds(u: real, jitter: real)
    requires IsUnitDraw(u) && jitter > 0.0
    ensures -jitter / 2.0 <= JitterOffset(u, jitter) < jitter / 2.0
  {
    assert JitterOffset(u, jitter) + jitter / 2.0 == u * jitter;
    assert jitter / 2.0 - JitterOffset(u, jitter) == (1.0 - u) * jitter;
    NonNegProduct(u, jitter);
    assert (1.0 - u) * jitter > 0.0;
  }

  // ---------------------------------------------------------------- scatter

  /** `Math.max(height, 15)`: the radius of the scatter sphere. */
  function ScatterRadius(height: real): (r: real)
    ensures r >= 15.0 && r >= height
  {
    Max(height, 15.0)
  }

  /** `scatterRadius * Math.cbrt(u)`: the point's distance from the origin. */
  function ScatterDistance(m: MathLib, height: real, u: real): real
  {
    ScatterRadius(height) * Cbrt(m, u)
  }

  /** The scatter point in spherical coordinates: azimuth `theta = u0 * 2 * PI`,
      polar angle `phi = acos(2 * u1 - 1)`, distance `ScatterDistance(u2)`. */
  function ScatterPosition(m: MathLib, height: real, u0: real, u1: real, u2: real): Vec3
  {
    var theta := ScatterAzimuth(u0);
    var phi := ScatterPolar(m, u1);
    var r := ScatterDistance(m, height, u2);
    Vec3(r * Sin(m, phi) * Cos(m, theta), r * Sin(m, phi) * Sin(m, theta), r * Cos(m, phi))
  }

  function ScatterAzimuth(u0: real): real
  {
    u0 * 2.0 * PI
  }

  function ScatterPolar(m: MathLib, u1: real): real
  {
    Acos(m, 2.0 * u1 - 1.0)
  }

  /** The azimuth lies in [0, 2·PI) and the polar angle in [0, PI]. */
  lemma ScatterAngles(m: MathLib, u0: real, u1: real)
    requires AcosRange(m)
    requires IsUnitDraw(u0) && IsUnitDraw(u1)
    ensures 0.0 <= ScatterAzimuth(u0) < 2.0 * PI
    ensures 0.0 <= ScatterPolar(m, u1) <= PI
  {
    assert -1.0 <= 2.0 * u1 - 1.0 <= 1.0;
  }

  /** The scatter distance `max(height, 15) * cbrt(u)` lies in [0, max(height, 15)]. */
  lemma ScatterDistanceBounds(m: MathLib, height: real, u: real)
    requires CbrtLaw(m)
    requires IsUnitDraw(u)
    ensures 0.0 <= ScatterDistance(m, height, u) <= ScatterRadius(height)
    ensures ScatterDistance(m, height, u) * ScatterDistance(m, height, u) <= ScatterRadius(height) * ScatterRadius(height)
  {
    var R, c := ScatterRadius(height), Cbrt(m, u);
    CbrtUnit(m, u);
    NonNegProduct(R, c);
    NonNegProduct(R, 1.0 - c);
    assert R - R * c == R * (1.0 - c);
    SquareOrder(R * c, R);
  }

  /** The scatter point is at distance `r` from the origin, with `r` in
      [0, max(height, 15)], so it lies inside the scatter sphere. */
  lemma ScatterInSphere(m: MathLib, height: real, u0: real, u1: real, u2: real)
    requires Pythagorean(m) && CbrtLaw(m)
    requires IsUnitDraw(u2)
    ensures NormSquared(ScatterPosition(m, height, u0, u1, u2))
         == ScatterDistance(m, height, u2) * ScatterDistance(m, height, u2)
    ensures 0.0 <= ScatterDistance(m, height, u2) <= ScatterRadius(height)
    ensures NormSquared(ScatterPosition(m, height, u0, u1, u2)) <= ScatterRadius(height) * ScatterRadius(height)
  {
    ScatterNorm(m, height, u0, u1, u2);
    ScatterDistanceBounds(m, height, u2);
  }

  lemma ScatterNorm(m: MathLib, height: real, u0: real, u1: real, u2: real)
    requires Pythagorean(m)
    ensures NormSquared(ScatterPosition(m, height, u0, u1, u2))
         == ScatterDistance(m, height, u2) * ScatterDistance(m, height, u2)
  {
    var r, theta, phi := ScatterDistance(m, height, u2), ScatterAzimuth(u0), ScatterPolar(m, u1);
    assert Sin(m, phi) * Sin(m, phi) + Cos(m, phi) * Cos(m, phi) == 1.0;
    assert Sin(m, theta) * Sin(m, theta) + Cos(m, theta) * Cos(m, theta) == 1.0;
    UnitSphere(r, Sin(m, phi), Cos(m, phi), Sin(m, theta), Cos(m, theta));
  }

  /** Spherical coordinates: (r·sp·ct, r·sp·st, r·cp) is at squared distance r²
      whenever sp² + cp² = 1 and st² + ct² = 1. */
  lemma UnitSphere(r: real, sp: real, cp: real, st: real, ct: real)
    requires sp * sp + cp * cp == 1.0
    requires st * st + ct * ct == 1.0
    ensures NormSquared(Vec3(r * sp * ct, r * sp * st, r * cp)) == r * r
  {
    var a := r * sp;
    UnitCircle(ct, st, a);
    assert (r * sp * ct) * (r * sp * ct) + (r * sp * st) * (r * sp * st) == a * a;
    UnitCircle(sp, cp, r);
  }

  // ---------------------------------------------------------------- particle

  /** `Math.random() * Math.PI`: one base rotation angle. */
  function RotationAngle(u: real): real
  {
    u * PI
  }

  /** `Math.random() * 0.5 + 0.5`: the scale and the speed. */
  function HalfToOne(u: real): real
  {
    u * 0.5 + 0.5
  }

  /** `Math.random() * Math.PI * 2`: the phase. */
  function Phase(u: real): real
  {
    u * PI * 2.0
  }

  /** The tree position of particle `i` before jitter, by shape family. */
  function TreeBase(m: MathLib, cfg: LayerConfig, rand: nat -> real, i: nat): Vec3
    requires i < cfg.count
  {
    var t := NormalizedIndex(i, cfg.count);
    var d := cfg.distribution;
    if d == Cylinder then
      CylinderTree(m, cfg.radius, cfg.height, cfg.yOffset, t, Draw(rand, d, i, 0), Draw(rand, d, i, 1))
    else
      ConeTree(m, i, cfg.radius, cfg.height, cfg.yOffset, t, Draw(rand, d, i, 0))
  }

  /** The jitter added to particle `i`'s tree position. */
  function TreeJitter(cfg: LayerConfig, rand: nat -> real, i: nat): Vec3
  {
    var d, o, j := cfg.distribution, TreeDraws(cfg.distribution), JitterSize(cfg.geometry);
    Vec3(JitterOffset(Draw(rand, d, i, o), j),
         JitterOffset(Draw(rand, d, i, o + 1), j),
         JitterOffset(Draw(rand, d, i, o + 2), j))
  }

  /** The particle the generator pushes for index `i`. */
  function MakeParticle(m: MathLib, cfg: LayerConfig, rand: nat -> real, i: nat): Particle
    requires i < cfg.count
  {
    var d, o := cfg.distribution, TreeDraws(cfg.distribution);
    Particle(
      i,
      Add(TreeBase(m, cfg, rand, i), TreeJitter(cfg, rand, i)),
      ScatterPosition(m, cfg.height, Draw(rand, d, i, o + 3), Draw(rand, d, i, o + 4), Draw(rand, d, i, o + 5)),
      Vec3(RotationAngle(Draw(rand, d, i, o + 6)),
           RotationAngle(Draw(rand, d, i, o + 7)),
           RotationAngle(Draw(rand, d, i, o + 8))),
      HalfToOne(Draw(rand, d, i, o + 9)),
      HalfToOne(Draw(rand, d, i, o + 10)),
      Phase(Draw(rand, d, i, o + 11)))
  }

  /** Angles drawn as `u * PI` lie in [0, PI). */
  predicate InHalfTurn(a: real)
  {
    0.0 <= a < PI
  }

  /** Every draw of the stream is in [0, 1). */
  lemma DrawIsUnit(rand: nat -> real, d: Distribution, i: nat, j: nat)
    requires UnitDraws(rand)
    ensures IsUnitDraw(Draw(rand, d, i, j))
  {
    assert IsUnitDraw(rand(i * DrawsPerParticle(d) + j));
  }

  /** The jitter of each axis lies in [-j/2, j/2), j the layer's jitter size. */
  lemma TreeJitterBounds(cfg: LayerConfig, rand: nat -> real, i: nat)
    requires UnitDraws(rand)
    ensures var e, j := TreeJitter(cfg, rand, i), JitterSize(cfg.geometry);
      -j / 2.0 <= e.x < j / 2.0 && -j / 2.0 <= e.y < j / 2.0 && -j / 2.0 <= e.z < j / 2.0
  {
    var d, o, j := cfg.distribution, TreeDraws(cfg.distribution), JitterSize(cfg.geometry);
    DrawIsUnit(rand, d, i, o);
    DrawIsUnit(rand, d, i, o + 1);
    DrawIsUnit(rand, d, i, o + 2);
    JitterBounds(Draw(rand, d, i, o), j);
    JitterBounds(Draw(rand, d, i, o + 1), j);
    JitterBounds(Draw(rand, d, i, o + 2), j);
  }

  /** The tree position of a generated particle, before jitter, lies in the
      layer's height band and within `radius` of the axis. A CONE particle is
      moreover between 0.8 and 1 times the shell radius `radius * (1 - t)` from
      the axis, at angle `i * angleIncrement`. */
  lemma TreeBaseBounds(m: MathLib, cfg: LayerConfig, rand: nat -> real, i: nat)
    requires SqrtLaw(m) && Pythagorean(m) && UnitDraws(rand)
    requires WellFormed(cfg) && i < cfg.count
    ensures var b := TreeBase(m, cfg, rand, i);
      cfg.yOffset - cfg.height / 2.0 <= b.y < cfg.yOffset + cfg.height / 2.0
    ensures HorizontalSquared(TreeBase(m, cfg, rand, i)) <= cfg.radius * cfg.radius
    ensures cfg.distribution == Cone ==>
      var b, shell := TreeBase(m, cfg, rand, i), ShellRadius(cfg.radius, NormalizedIndex(i, cfg.count));
      (0.8 * shell) * (0.8 * shell) <= HorizontalSquared(b) <= shell * shell &&
      b.x == Cos(m, ConeAngle(m, i)) * ConeRadius(m, cfg.radius, NormalizedIndex(i, cfg.count), Draw(rand, Cone, i, 0)) &&
      b.z == Sin(m, ConeAngle(m, i)) * ConeRadius(m, cfg.radius, NormalizedIndex(i, cfg.count), Draw(rand, Cone, i, 0))
  {
    if cfg.distribution == Cylinder {
      CylinderBaseBounds(m, cfg, rand, i);
    } else {
      ConeBaseBounds(m, cfg, rand, i);
    }
  }

  lemma CylinderBaseBounds(m: MathLib, cfg: LayerConfig, rand: nat -> real, i: nat)
    requires SqrtLaw(m) && Pythagorean(m) && UnitDraws(rand)
    requires WellFormed(cfg) && i < cfg.count && cfg.distribution == Cylinder
    ensures var b := TreeBase(m, cfg, rand, i);
      cfg.yOffset - cfg.height / 2.0 <= b.y < cfg.yOffset + cfg.height / 2.0 &&
      HorizontalSquared(b) <= cfg.radius * cfg.radius
  {
    var t, u0, u1 := NormalizedIndex(i, cfg.count), Draw(rand, Cylinder, i, 0), Draw(rand, Cylinder, i, 1);
    HeightRange(i, cfg.count, cfg.height, cfg.yOffset);
    DrawIsUnit(rand, Cylinder, i, 0);
    DrawIsUnit(rand, Cylinder, i, 1);
    CylinderWithinRadius(m, cfg.radius, cfg.height, cfg.yOffset, t, u0, u1);
  }

  lemma ConeBaseBounds(m: MathLib, cfg: LayerConfig, rand: nat -> real, i: nat)
    requires SqrtLaw(m) && Pythagorean(m) && UnitDraws(rand)
    requires WellFormed(cfg) && i < cfg.count && cfg.distribution == Cone
    ensures var b, t := TreeBase(m, cfg, rand, i), NormalizedIndex(i, cfg.count);
      var shell := ShellRadius(cfg.radius, t);
      cfg.yOffset - cfg.height / 2.0 <= b.y < cfg.yOffset + cfg.height / 2.0 &&
      (0.8 * shell) * (0.8 * shell) <= HorizontalSquared(b) <= shell * shell <= cfg.radius * cfg.radius &&
      b.x == Cos(m, ConeAngle(m, i)) * ConeRadius(m, cfg.radius, t, Draw(rand, Cone, i, 0)) &&
      b.z == Sin(m, ConeAngle(m, i)) * ConeRadius(m, cfg.radius, t, Draw(rand, Cone, i, 0))
  {
    var t, u0 := NormalizedIndex(i, cfg.count), Draw(rand, Cone, i, 0);
    HeightRange(i, cfg.count, cfg.height, cfg.yOffset);
    DrawIsUnit(rand, Cone, i, 0);
    ConeWithinShell(m, i, cfg.radius, cfg.height, cfg.yOffset, t, u0);
  }

  /** A CYLINDER position before jitter is at its layer height, within `radius` of the axis. */
  lemma CylinderWithinRadius(m: MathLib, radius: real, height: real, yOffset: real, t: real, u0: real, u1: real)
    requires SqrtLaw(m) && Pythagorean(m)
    requires radius >= 0.0 && IsUnitDraw(u0) && IsUnitDraw(u1)
    ensures CylinderTree(m, radius, height, yOffset, t, u0, u1).y == LayerHeight(t, height, yOffset)
    ensures HorizontalSquared(CylinderTree(m, radius, height, yOffset, t, u0, u1)) <= radius * radius
  {
    CylinderTreeShape(m, radius, height, yOffset, t, u0, u1);
    SquareOrder(CylinderRadius(m, radius, u0), radius);
  }

  /** A CONE position before jitter is at its layer height, between 0.8 and 1 times
      the shell radius from the axis, and so within `radius` of it. */
  lemma ConeWithinShell(m: MathLib, i: nat, radius: real, height: real, yOffset: real, t: real, u0: real)
    requires SqrtLaw(m) && Pythagorean(m)
    requires radius >= 0.0 && 0.0 <= t <= 1.0 && IsUnitDraw(u0)
    ensures var b, shell := ConeTree(m, i, radius, height, yOffset, t, u0), ShellRadius(radius, t);
      b.y == LayerHeight(t, height, yOffset) &&
      b.x == Cos(m, ConeAngle(m, i)) * ConeRadius(m, radius, t, u0) &&
      b.z == Sin(m, ConeAngle(m, i)) * ConeRadius(m, radius, t, u0) &&
      (0.8 * shell) * (0.8 * shell) <= HorizontalSquared(b) <= shell * shell <= radius * radius
  {
    ConeTreeShape(m, i, radius, height, yOffset, t, u0);
    ShellSquares(radius, t, ShellRadius(radius, t), ConeRadius(m, radius, t, u0));
  }

  /** The squared form of `0.8 * shell <= r <= shell <= radius`, on plain reals. */
  lemma ShellSquares(radius: real, t: real, shell: real, r: real)
    requires radius >= 0.0 && 0.0 <= t <= 1.0 && shell == radius * (1.0 - t)
    requires 0.8 * shell <= r <= shell
    ensures (0.8 * shell) * (0.8 * shell) <= r * r <= shell * shell <= radius * radius
  {
    NonNegProduct(radius, 1.0 - t);
    NonNegProduct(radius, t);
    SquareOrder(0.8 * shell, r);
    SquareOrder(r, shell);
    SquareOrder(shell, radius);
  }

  /** What the generator promises about one particle beyond its base tree
      position (which `TreeBaseBounds` states): its id is its index,
      its tree position is the shape's position plus jitter of at most half the
      jitter size on each axis, its scatter point is inside the scatter sphere,
      and its static attributes stay in their ranges. */
  lemma ParticleBounds(m: MathLib, cfg: LayerConfig, rand: nat -> real, i: nat)
    requires Lawful(m) && UnitDraws(rand)
    requires i < cfg.count
    ensures MakeParticle(m, cfg, rand, i).id == i
    ensures MakeParticle(m, cfg, rand, i).treePosition == Add(TreeBase(m, cfg, rand, i), TreeJitter(cfg, rand, i))
    ensures var e, j := TreeJitter(cfg, rand, i), JitterSize(cfg.geometry);
      -j / 2.0 <= e.x < j / 2.0 && -j / 2.0 <= e.y < j / 2.0 && -j / 2.0 <= e.z < j / 2.0
    ensures NormSquared(MakeParticle(m, cfg, rand, i).scatterPosition)
         <= ScatterRadius(cfg.height) * ScatterRadius(cfg.height)
    ensures var p := MakeParticle(m, cfg, rand, i);
      InHalfTurn(p.rotation.x) && InHalfTurn(p.rotation.y) && InHalfTurn(p.rotation.z)
    ensures var p := MakeParticle(m, cfg, rand, i);
      0.5 <= p.scale < 1.0 && 0.5 <= p.speed < 1.0 && 0.0 <= p.phase < 2.0 * PI
  {
    TreeJitterBounds(cfg, rand, i);
    ParticleScatterBounds(m, cfg, rand, i);
    AttributeBounds(rand, cfg.distribution, i);
  }

  lemma ParticleScatterBounds(m: MathLib, cfg: LayerConfig, rand: nat -> real, i: nat)
    requires Lawful(m) && UnitDraws(rand)
    requires i < cfg.count
    ensures NormSquared(MakeParticle(m, cfg, rand, i).scatterPosition)
         <= ScatterRadius(cfg.height) * ScatterRadius(cfg.height)
  {
    var d, o := cfg.distribution, TreeDraws(cfg.distribution);
    DrawIsUnit(rand, d, i, o + 5);
    var u3, u4, u5 := Draw(rand, d, i, o + 3), Draw(rand, d, i, o + 4), Draw(rand, d, i, o + 5);
    var q := ScatterPosition(m, cfg.height, u3, u4, u5);
    assert NormSquared(q) <= ScatterRadius(cfg.height) * ScatterRadius(cfg.height) by {
      ScatterInSphere(m, cfg.height, u3, u4, u5);
    }
    assert MakeParticle(m, cfg, rand, i).scatterPosition == q;
  }

  /** Rotation angles, scale, speed and phase stay in their ranges. */
  lemma AttributeBounds(rand: nat -> real, d: Distribution, i: nat)
    requires UnitDraws(rand)
    ensures var o := TreeDraws(d);
      InHalfTurn(RotationAngle(Draw(rand, d, i, o + 6))) &&
      InHalfTurn(RotationAngle(Draw(rand, d, i, o + 7))) &&
      InHalfTurn(RotationAngle(Draw(rand, d, i, o + 8)))
    ensures var o := TreeDraws(d);
      0.5 <= HalfToOne(Draw(rand, d, i, o + 9)) < 1.0 &&
      0.5 <= HalfToOne(Draw(rand, d, i, o + 10)) < 1.0 &&
      0.0 <= Phase(Draw(rand, d, i, o + 11)) < 2.0 * PI
  {
    var o := TreeDraws(d);
    DrawIsUnit(rand, d, i, o + 6);
    DrawIsUnit(rand, d, i, o + 7);
    DrawIsUnit(rand, d, i, o + 8);
    DrawIsUnit(rand, d, i, o + 9);
    DrawIsUnit(rand, d, i, o + 10);
    DrawIsUnit(rand, d, i, o + 11);
  }

  /** Draws must come from the stream in call order: the generator reads the
      block of particle `i` right after that of particle `i - 1`. */
  lemma DrawBlocksAdjacent(rand: nat -> real, d: Distribution, i: nat)
    ensures Draw(rand, d, i + 1, 0) == Draw(rand, d, i, DrawsPerParticle(d))
  {
    assert (i + 1) * DrawsPerParticle(d) == i * DrawsPerParticle(d) + DrawsPerParticle(d);
  }

  /** The generation loop of the `useMemo`: one particle per index, pushed in
      order; particle `i` reads its own block of the `Math.random()` stream in
      the order the source calls it. */
  method Generate(m: MathLib, cfg: LayerConfig, rand: nat -> real) returns (particles: seq<Particle>)
    ensures |particles| == cfg.count
    ensures cfg.count == 0 ==> particles == []
    ensures forall i :: 0 <= i < cfg.count ==> particles[i].id == i
    ensures forall i :: 0 <= i < cfg.count ==> particles[i] == MakeParticle(m, cfg, rand, i)
  {
    var temp: seq<Particle> := [];
    var d := cfg.distribution;
    var o := TreeDraws(d);
    for i := 0 to cfg.count
      invariant |temp| == i
      invariant forall k :: 0 <= k < i ==> temp[k] == MakeParticle(m, cfg, rand, k)
    {
      var treePos := Add(TreeBase(m, cfg, rand, i), TreeJitter(cfg, rand, i));
      var scatterPos := ScatterPosition(m, cfg.height, Draw(rand, d, i, o + 3), Draw(rand, d, i, o + 4), Draw(rand, d, i, o + 5));
      var rotation := Vec3(RotationAngle(Draw(rand, d, i, o + 6)),
                           RotationAngle(Draw(rand, d, i, o + 7)),
                           RotationAngle(Draw(rand, d, i, o + 8)));
      var p := Particle(i, treePos, scatterPos, rotation,
                        HalfToOne(Draw(rand, d, i, o + 9)),
                        HalfToOne(Draw(rand, d, i, o + 10)),
                        Phase(Draw(rand, d, i, o + 11)));
      temp := temp + [p];
    }
    particles := temp;
  }
}
