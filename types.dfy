/** The shared types of the scene: the two-valued app state, a layer's
    configuration, the generated per-particle data and the per-frame transform. */
module Types {
  import opened JsMath

  /** `AppState`: the discrete target of the morph. */
  datatype AppState = Scattered | TreeShape

  /** `distributionType`: the shape family of a layer's tree positions. */
  datatype Distribution = Cone | Cylinder

  /** `geometryType`: the mesh drawn for each particle of a layer. */
  datatype Geometry = Box | Sphere | Tetra | Cube

  /** The props of one particle layer that generation and animation read.
      The colour is used only by the material and is not modelled. */
  datatype LayerConfig = LayerConfig(
    id: string,
    count: nat,
    radius: real,
    height: real,
    yOffset: real,
    scaleMult: real,
    distribution: Distribution,
    geometry: Geometry)

  /** The configuration domain the generator's geometric promises rely on. */
  predicate WellFormed(cfg: LayerConfig)
  {
    cfg.count > 0 && cfg.radius > 0.0 && cfg.height > 0.0
  }

  /** `ParticleData`: created once per index by the layout generator.
      `rotation` is the Euler triple (x, y, z) of the base orientation. */
  datatype Particle = Particle(
    id: nat,
    treePosition: Vec3,
    scatterPosition: Vec3,
    rotation: Vec3,
    scale: real,
    speed: real,
    phase: real)

  /** What one frame writes into an instance slot: the position, Euler rotation
      and uniform scale of the shared `dummy` object before `updateMatrix`. */
  datatype Transform = Transform(position: Vec3, rotation: Vec3, scale: real)
}
