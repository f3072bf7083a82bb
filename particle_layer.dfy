/** The mutable state of one mounted `ParticleSystem` layer and its per-frame
    callback: the morph factor kept across frames, and the instanced mesh whose
    per-instance transforms each frame rewrites. */
module ParticleLayer {
  import opened JsMath
  import opened Types
  import opened Animation

  /** The transform every instance is assumed to hold before its first frame
      (three.js initialises instance matrices to the identity). */
  const Identity: Transform := Transform(Vec3(0.0, 0.0, 0.0), Vec3(0.0, 0.0, 0.0), 1.0)

  class Layer {
    /** The particles built once for the layer (the memoised `particles`). */
    const particles: seq<Particle>
    const geometry: Geometry
    const scaleMult: real
    /** `morphFactor.current`: 0 is fully scattered, 1 fully assembled. */
    var morphFactor: real
    /** `meshRef.current`: the instanced mesh, one transform per instance, or
        `null` while it is not mounted. */
    var mesh: array?<Transform>

    /** The mesh, when present, has one instance per particle. */
    ghost predicate Valid()
      reads this
    {
      mesh != null ==> mesh.Length == |particles|
    }

    /** A layer starts scattered. When `mounted`, its mesh has one instance per
        particle (`count` instances), each holding the assumed `Identity`. */
    constructor (ps: seq<Particle>, g: Geometry, mult: real, mounted: bool)
      ensures Valid()
      ensures particles == ps && geometry == g && scaleMult == mult
      ensures morphFactor == 0.0
      ensures mounted <==> mesh != null
      ensures mesh != null ==> fresh(mesh) && forall k :: 0 <= k < mesh.Length ==> mesh[k] == Identity
    {
      particles, geometry, scaleMult := ps, g, mult;
      morphFactor := 0.0;
      if mounted {
        mesh := new Transform[|ps|](_ => Identity);
      } else {
        mesh := null;
      }
    }

    /** One `useFrame` callback. Without a mesh nothing happens. Otherwise the
        factor takes one easing step toward the app state's target with weight
        `delta * ANIMATION_SPEED`, and every instance `i` receives the transform
        of particle `i` at the new factor and the elapsed time. */
    method Frame(m: MathLib, appState: AppState, delta: real, time: real)
      requires Valid()
      modifies this`morphFactor, mesh
      ensures Valid() && mesh == old(mesh)
      ensures mesh == null ==> morphFactor == old(morphFactor)
      ensures mesh != null ==>
        morphFactor == MorphStep(old(morphFactor), TargetFactor(appState), MorphRate(delta))
      ensures mesh != null ==> forall i :: 0 <= i < mesh.Length ==>
        mesh[i] == ParticleTransform(m, particles[i], morphFactor, time, geometry, scaleMult)
      ensures mesh != null && 0.0 <= old(morphFactor) <= 1.0 && 0.0 <= delta <= 5.0 / 9.0 ==>
        0.0 <= morphFactor <= 1.0
    {
      if mesh == null {
        return;
      }
      var target := TargetFactor(appState);
      var k := MorphRate(delta);
      if 0.0 <= morphFactor <= 1.0 && 0.0 <= delta <= 5.0 / 9.0 {
        MorphRateUnit(delta);
        MorphStepContracts(morphFactor, target, k);
      }
      var f := MorphStep(morphFactor, target, k);
      morphFactor := f;
      for i := 0 to |particles|
        invariant morphFactor == f
        invariant forall j :: 0 <= j < i ==>
          mesh[j] == ParticleTransform(m, particles[j], f, time, geometry, scaleMult)
      {
        mesh[i] := ParticleTransform(m, particles[i], f, time, geometry, scaleMult);
      }
    }
  }

  /** Whatever the factor in [0, 1], an instance a frame writes is never more than
      0.75 horizontally and 1.5 vertically from the point between its scatter and
      tree positions, and never off it along Z: the largest float is the one of the
      fully scattered state. */
  lemma FrameInstanceBounds(m: MathLib, p: Particle, f: real, time: real, g: Geometry, mult: real)
    requires TrigBounded(m)
    requires 0.0 <= f <= 1.0
    ensures var t, c := ParticleTransform(m, p, f, time, g, mult), LerpVectors(p.scatterPosition, p.treePosition, f);
      Abs(t.position.x - c.x) <= 0.75 && Abs(t.position.y - c.y) <= 1.5 && t.position.z == c.z
  {
    TransformBounds(m, p, f, time, g, mult);
    RatesDecrease(0.0, f);
  }
}
