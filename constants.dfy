/** The configuration table of the scene: the seven tree layers and the morph
    speed. Colours are static data for the materials and are not modelled. */
module Constants {
  import opened Types
  import Layout

  /** `ANIMATION_SPEED`: the morph factor's easing rate per second. */
  const ANIMATION_SPEED: real := 1.8

  /** `TREE_LAYERS`: trunk, needles, two ornament colours, two gift colours, dust. */
  const TREE_LAYERS: seq<LayerConfig> := [
    LayerConfig("trunk", 4000, 0.8, 4.0, -6.5, 1.0, Cylinder, Box),
    LayerConfig("needles", 25000, 4.5, 12.0, 0.0, 1.0, Cone, Box),
    LayerConfig("ornaments-gold", 300, 4.6, 12.0, 0.0, 0.6, Cone, Sphere),
    LayerConfig("ornaments-red", 200, 4.6, 11.0, 0.5, 0.7, Cone, Sphere),
    LayerConfig("gifts-gold", 80, 4.8, 10.0, -1.0, 0.8, Cone, Cube),
    LayerConfig("gifts-purple", 60, 4.8, 9.0, -0.5, 0.9, Cone, Cube),
    LayerConfig("dust", 1500, 6.0, 14.0, 0.0, 0.3, Cone, Tetra)
  ]

  /** Every predefined layer meets the generator's configuration domain (positive
      count, radius and height), only the trunk is a cylinder, and no layer is
      taller than 15, so every layer scatters into the sphere of radius 15. */
  lemma TreeLayersWellFormed()
    ensures |TREE_LAYERS| == 7
    ensures forall k :: 0 <= k < |TREE_LAYERS| ==> WellFormed(TREE_LAYERS[k])
    ensures forall k :: 0 <= k < |TREE_LAYERS| ==> (TREE_LAYERS[k].distribution == Cylinder <==> k == 0)
    ensures forall k :: 0 <= k < |TREE_LAYERS| ==> Layout.ScatterRadius(TREE_LAYERS[k].height) == 15.0
  {
  }
}
