/** The numeric basis of the model: JavaScript's `Math` over `real`, and the two
    interpolation helpers of three.js that the particle system calls.

    `Math.sin`, `Math.cos`, `Math.sqrt`, `Math.cbrt` and `Math.acos` are not given a
    definition here. A `MathLib` value carries them as total functions, and
    `Lawful` states the laws the model relies on. Every property proved about the
    particle system holds for every lawful choice of these functions. */
module JsMath {

  /** `Math.PI`, written as the shortest decimal that rounds to the double
      nearest pi; the model uses that decimal as an exact real. */
  const PI: real := 3.141592653589793

  datatype MathLib = MathLib(
    sin: real -> real,
    cos: real -> real,
    sqrt: real -> real,
    cbrt: real -> real,
    acos: real -> real)

  /** `Math.sin(x)`, `Math.cos(x)`, `Math.sqrt(x)`, `Math.cbrt(x)`, `Math.acos(x)`
      under the library `m`. */
  function Sin(m: MathLib, x: real): real { m.sin(x) }
  function Cos(m: MathLib, x: real): real { m.cos(x) }
  function Sqrt(m: MathLib, x: real): real { m.sqrt(x) }
  function Cbrt(m: MathLib, x: real): real { m.cbrt(x) }
  function Acos(m: MathLib, x: real): real { m.acos(x) }

  /** `Math.sin` and `Math.cos` stay in [-1, 1]. */
  ghost predicate TrigBounded(m: MathLib)
  {
    (forall x :: -1.0 <= Sin(m, x) <= 1.0) &&
    (forall x :: -1.0 <= Cos(m, x) <= 1.0)
  }

  /** sin²(x) + cos²(x) = 1. */
  ghost predicate Pythagorean(m: MathLib)
  {
    forall x :: Sin(m, x) * Sin(m, x) + Cos(m, x) * Cos(m, x) == 1.0
  }

  /** `Math.sqrt` is the non-negative square root on non-negative arguments. */
  ghost predicate SqrtLaw(m: MathLib)
  {
    forall x :: 0.0 <= x ==> 0.0 <= Sqrt(m, x) && Sqrt(m, x) * Sqrt(m, x) == x
  }

  /** `Math.cbrt` is the real cube root. */
  ghost predicate CbrtLaw(m: MathLib)
  {
    forall x :: Cbrt(m, x) * Cbrt(m, x) * Cbrt(m, x) == x
  }

  /** `Math.acos` maps [-1, 1] into [0, PI]. */
  ghost predicate AcosRange(m: MathLib)
  {
    forall x :: -1.0 <= x <= 1.0 ==> 0.0 <= Acos(m, x) <= PI
  }

  /** The laws of the real functions that `Math` approximates. */
  ghost predicate Lawful(m: MathLib)
  {
    TrigBounded(m) && Pythagorean(m) && SqrtLaw(m) && CbrtLaw(m) && AcosRange(m)
  }

  /** A random draw: `Math.random()` returns a value in [0, 1). */
  predicate IsUnitDraw(u: real)
  {
    0.0 <= u < 1.0
  }

  /** An infinite stream of `Math.random()` results, consumed in order. */
  ghost predicate UnitDraws(rand: nat -> real)
  {
    forall k :: IsUnitDraw(rand(k))
  }

  /** `Math.max` on two reals. */
  function Max(a: real, b: real): (r: real)
    ensures r >= a && r >= b
    ensures r == a || r == b
  {
    if a >= b then a else b
  }

  /** `Math.sqrt` maps [0, 1] into [0, 1]. */
  lemma SqrtUnit(m: MathLib, u: real)
    requires SqrtLaw(m)
    requires 0.0 <= u <= 1.0
    ensures 0.0 <= Sqrt(m, u) <= 1.0
  {
    SquareOrder(Sqrt(m, u), 1.0);
  }

  /** `Math.cbrt` maps [0, 1] into [0, 1]. */
  lemma CbrtUnit(m: MathLib, u: real)
    requires CbrtLaw(m)
    requires 0.0 <= u <= 1.0
    ensures 0.0 <= Cbrt(m, u) <= 1.0
  {
    CubeOrder(Cbrt(m, u));
  }

  /** `(1 + Math.sqrt(5)) / 2`, the golden ratio. */
  function GoldenRatio(m: MathLib): real
  {
    (1.0 + Sqrt(m, 5.0)) / 2.0
  }

  /** The golden ratio is the positive root of x*x = x + 1, so it exceeds 1. */
  lemma GoldenRatioIdentity(m: MathLib)
    requires SqrtLaw(m)
    ensures GoldenRatio(m) * GoldenRatio(m) == GoldenRatio(m) + 1.0
    ensures 1.5 < GoldenRatio(m) < 2.0
  {
    var s := Sqrt(m, 5.0);
    SquareOrder(2.0, s);
    SquareOrder(s, 3.0);
    assert s * s == 5.0;
    assert (1.0 + s) * (1.0 + s) == 1.0 + 2.0 * s + s * s;
  }

  /** `THREE.MathUtils.lerp(x, y, t)`, defined by three.js as (1 - t)·x + t·y. */
  function Lerp(x: real, y: real, t: real): (r: real)
    ensures t == 0.0 ==> r == x
    ensures t == 1.0 ==> r == y
    ensures r - x == (y - x) * t
  {
    (1.0 - t) * x + t * y
  }

  /** On t in [0, 1] the result lies between the two endpoints and moves
      monotonically from x to y. */
  lemma LerpBetween(x: real, y: real, t: real, t': real)
    requires 0.0 <= t <= t' <= 1.0
    ensures x <= y ==> x <= Lerp(x, y, t) <= Lerp(x, y, t') <= y
    ensures y <= x ==> y <= Lerp(x, y, t') <= Lerp(x, y, t) <= x
  {
    assert Lerp(x, y, t') - Lerp(x, y, t) == (y - x) * (t' - t);
    assert y - Lerp(x, y, t') == (y - x) * (1.0 - t');
    NonNegProduct(y - x, t);
    NonNegProduct(y - x, t' - t);
    NonNegProduct(y - x, 1.0 - t');
    NonNegProduct(x - y, t);
    NonNegProduct(x - y, t' - t);
    NonNegProduct(x - y, 1.0 - t');
  }

  /** The sign rule for products, stated once for the nonlinear steps of later proofs. */
  lemma NonNegProduct(a: real, b: real)
    ensures a >= 0.0 && b >= 0.0 ==> a * b >= 0.0
  {
  }

  /** For non-negative reals, squaring preserves and reflects the order. */
  lemma SquareOrder(a: real, b: real)
    requires 0.0 <= a && 0.0 <= b
    ensures a <= b <==> a * a <= b * b
    ensures a < b <==> a * a < b * b
  {
    if a < b {
      SquareLess(a, b);
    } else if b < a {
      SquareLess(b, a);
    }
  }

  lemma SquareLess(a: real, b: real)
    requires 0.0 <= a < b
    ensures a * a < b * b
  {
    NonNegProduct(a, b - a);
    assert b * (b - a) > 0.0;
  }

  /** Cubing keeps the sign and keeps 1 fixed, so a cube root outside [0, 1]
      has a cube outside [0, 1]. */
  lemma CubeOrder(c: real)
    ensures c < 0.0 ==> c * c * c < 0.0
    ensures c > 1.0 ==> c * c * c > 1.0
  {
    if c < 0.0 {
      assert c * c > 0.0;
    }
    if c > 1.0 {
      assert c * c > 1.0;
    }
  }

  /** `THREE.Vector3`. */
  datatype Vec3 = Vec3(x: real, y: real, z: real)

  function Add(a: Vec3, b: Vec3): Vec3
  {
    Vec3(a.x + b.x, a.y + b.y, a.z + b.z)
  }

  /** Squared distance from the origin. */
  function NormSquared(v: Vec3): real
  {
    v.x * v.x + v.y * v.y + v.z * v.z
  }

  /** Squared distance from the vertical (Y) axis. */
  function HorizontalSquared(v: Vec3): real
  {
    v.x * v.x + v.z * v.z
  }

  /** `new Vector3().lerpVectors(a, b, t)`, defined by three.js as a + (b - a)·t on each axis. */
  function LerpVectors(a: Vec3, b: Vec3, t: real): (r: Vec3)
    ensures t == 0.0 ==> r == a
    ensures t == 1.0 ==> r == b
  {
    Vec3(a.x + (b.x - a.x) * t, a.y + (b.y - a.y) * t, a.z + (b.z - a.z) * t)
  }
}
