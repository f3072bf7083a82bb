# Christmas-tree particle system: layout and morph model

This project models the particle core of an animated Christmas-tree scene.
Each tree layer (trunk, needles, ornaments, gifts, dust) is a `ParticleSystem`.
A layer does two things:

- **Layout.** When it is built, it generates one particle per index. Each
  particle gets:
  - a tree position: a volume of a cylinder for the trunk, or a golden-angle
    cone spiral for the other layers;
  - per-axis jitter, whose size depends on the geometry;
  - a random point in a scatter sphere;
  - random rotation, scale, speed and phase.
- **Morph.** On every frame, the layer eases its morph factor exponentially
  toward 1 (app state TREE_SHAPE) or 0 (SCATTERED). It then writes one
  transform per particle into its instanced mesh:
  - position: the interpolated position plus a floating offset;
  - rotation: the base rotation plus spin;
  - scale: the base scale times a pulse.

The model works over `real`.

- **`Math` functions.** `Math.sin`, `cos`, `sqrt`, `cbrt` and `acos` are
  components of a `MathLib` value. Every property holds for every `MathLib`
  that satisfies the laws the property needs:
  - `TrigBounded`: sin and cos are in [-1, 1];
  - `Pythagorean`: sin² + cos² = 1;
  - `SqrtLaw` and `CbrtLaw`: these are real square and cube roots;
  - `AcosRange`: acos maps [-1, 1] into [0, π].
- **`Math.random()`.** It is an infinite stream `rand: nat -> real` of values
  in [0, 1). The generator reads the stream in the source's call order, 14
  draws per CYLINDER particle and 13 per CONE particle.
- **Frame inputs.** The frame's `delta` and the clock's elapsed `time` are
  inputs to `Layer.Frame`.

Modules:

| file | module | what it holds |
|---|---|---|
| `js_math.dfy` | `JsMath` | the `Math` library and its laws, `Math.max`, three.js `lerp` and `lerpVectors`, `Vector3` |
| `types.dfy` | `Types` | `AppState`, layer configuration, particle data, instance transform |
| `layout.dfy` | `Layout` | the generation loop and the formulas it uses |
| `animation.dfy` | `Animation` | morph-factor easing and the per-particle transform formulas |
| `particle_layer.dfy` | `ParticleLayer` | a mounted layer: the morph factor, the instance array and the `useFrame` step |
| `constants.dfy` | `Constants` | `ANIMATION_SPEED` and the seven `TREE_LAYERS` |
| `ui.dfy` | `UI` | the toggle button's state flip |

## Model

| member | source | states |
|---|---|---|
| Layout.Generate | components/ParticleSystem.tsx:34-113 | Returns exactly `count` particles. `count = 0` gives the empty array. Particle `i` has `id = i` and is the particle built from the `i`-th block of random draws. |
| Layout.TreeDraws | components/ParticleSystem.tsx:45-68 | The number of `Math.random()` calls before the jitter: 2 for CYLINDER (lines 47-48), 1 for CONE (line 68). `Layout.DrawBlocksAdjacent` and `Layout.ParticleBounds` build on it. |
| Layout.DrawsPerParticle | components/ParticleSystem.tsx:39-110 | The number of `Math.random()` calls of one loop iteration: the tree draws plus 12 (jitter, scatter point, rotation, scale, speed, phase). `Layout.DrawBlocksAdjacent` states that consecutive particles' blocks are adjacent. |
| Layout.Draw | components/ParticleSystem.tsx:47-109 | The `j`-th `Math.random()` call of particle `i`, numbered in call order. `Layout.DrawIsUnit` states that every draw is in [0, 1). |
| Layout.MakeParticle | components/ParticleSystem.tsx:39-110 | The particle the loop body pushes for index `i`, built from that particle's block of draws. Its properties are stated by `Layout.ParticleBounds` and `Layout.TreeBaseBounds`. |
| Layout.TreeBase | components/ParticleSystem.tsx:45-75 | The tree position before jitter: `CylinderTree` for CYLINDER, `ConeTree` otherwise. Its properties are stated by `Layout.TreeBaseBounds`. |
| Layout.TreeJitter | components/ParticleSystem.tsx:78-83 | The jitter vector `((u − 0.5)·jitter, …)` on the three axes, from the three draws after the tree draws. Its properties are stated by `Layout.TreeJitterBounds` and `Layout.ParticleBounds`. |
| Layout.TreeBaseBounds | components/ParticleSystem.tsx:41-75 | For a well-formed layer, the generated particle's tree position before jitter lies in the height band [yOffset − h/2, yOffset + h/2), within `radius` of the axis. A CONE particle is also between 0.8 and 1 times the shell radius `radius·(1 − t)` from the axis, at angle `i·angleIncrement`. |
| Layout.CylinderBaseBounds | components/ParticleSystem.tsx:45-52 | The CYLINDER case of `TreeBaseBounds`. |
| Layout.ConeBaseBounds | components/ParticleSystem.tsx:60-74 | The CONE case of `TreeBaseBounds`. |
| Layout.NormalizedIndex | components/ParticleSystem.tsx:41 | `t = i / count` lies in [0, 1) and `t · count = i`. |
| Layout.HeightRange | components/ParticleSystem.tsx:41-52 | The layer height before jitter lies in the half-open band [yOffset − h/2, yOffset + h/2). Before jitter, the first particle is exactly at the bottom and the last particle is `h / count` below the top. |
| Layout.HeightStrictlyIncreasing | components/ParticleSystem.tsx:52 | For i < j, the height of particle i before jitter is strictly lower than that of particle j, for both shape families. |
| Layout.LayerHeight | components/ParticleSystem.tsx:52 | The shared height formula `t·h − h/2 + yOffset` (also line 60). Its properties are stated by `Layout.HeightRange` and `Layout.HeightStrictlyIncreasing`. |
| Layout.CylinderTree | components/ParticleSystem.tsx:45-52 | The CYLINDER position before jitter. Its properties are stated by `Layout.CylinderTreeShape` and `Layout.CylinderWithinRadius`. |
| Layout.CylinderRadius | components/ParticleSystem.tsx:47 | `radius·sqrt(u)`. `Layout.CylinderTreeShape` states that it lies in [0, radius] and is the distance from the axis. |
| Layout.CylinderAngle | components/ParticleSystem.tsx:48 | `u·PI·2`. `Layout.CylinderTreeShape` states that it lies in [0, 2π). |
| Layout.CylinderTreeShape | components/ParticleSystem.tsx:45-52 | A trunk particle, before jitter, is at its layer height. Its squared distance from the axis is `(radius·sqrt(u0))²`. That distance `radius·sqrt(u0)` is in [0, radius], and the angle is in [0, 2π). |
| Layout.CylinderWithinRadius | components/ParticleSystem.tsx:47-52 | A CYLINDER position before jitter is at its layer height and within `radius` of the axis. |
| Layout.ConeAngleSpacing | components/ParticleSystem.tsx:36-37 | The spiral angle is 0 for the first particle. Each step turns by exactly 2π(1+√5)/2, which lies strictly between 3π and 4π. |
| JsMath.GoldenRatio | components/ParticleSystem.tsx:36 | `(1 + sqrt(5))/2`. `JsMath.GoldenRatioIdentity` states φ² = φ + 1 and 1.5 < φ < 2. |
| Layout.AngleIncrement | components/ParticleSystem.tsx:37 | `2·PI·goldenRatio`. `Layout.ConeAngleSpacing` states that it is the step between consecutive spiral angles and lies in (3π, 4π). |
| Layout.ConeAngle | components/ParticleSystem.tsx:71 | `i·angleIncrement`. It is stated by `Layout.ConeAngleSpacing`, `Layout.ConeTreeShape` and `Layout.TreeBaseBounds`. |
| Layout.ConeTree | components/ParticleSystem.tsx:60-74 | The CONE position before jitter. Its properties are stated by `Layout.ConeTreeShape` and `Layout.ConeWithinShell`. |
| Layout.ShellRadius | components/ParticleSystem.tsx:65 | `radius·(1 − t)`. It is stated by `Layout.ConeShellTapers`, `Layout.ConeTreeShape` and `Layout.ConeWithinShell`. |
| Layout.VolumeFactor | components/ParticleSystem.tsx:68 | `0.8 + 0.2·sqrt(u)`. `Layout.ConeTreeShape` states that it lies in [0.8, 1]. |
| Layout.ConeRadius | components/ParticleSystem.tsx:69 | `radiusAtHeight·volumeFactor`. `Layout.ConeTreeShape` states that it is the distance from the axis and lies between 0.8 and 1 times the shell radius. |
| Layout.ConeTreeShape | components/ParticleSystem.tsx:60-74 | A cone particle, before jitter, is at its layer height and at angle `i·angleIncrement`. It is at distance `radius·(1−t)·volumeFactor` from the axis, with volumeFactor in [0.8, 1]. So the radius is between 0.8 and 1 times the shell radius. |
| Layout.ConeWithinShell | components/ParticleSystem.tsx:60-74 | A CONE position before jitter is at its layer height and angle. Its squared distance from the axis is between (0.8·shell)² and shell², and shell² is at most radius². |
| Layout.ShellSquares | components/ParticleSystem.tsx:65-69 | Helper (real arithmetic): squares the chain 0.8·shell ≤ r ≤ shell ≤ radius. |
| Layout.ConeShellTapers | components/ParticleSystem.tsx:65 | The shell radius is `radius` at the first particle and strictly decreases with the index. |
| Layout.JitterSize | components/ParticleSystem.tsx:78 | The jitter size is 0.4 exactly for box geometry and 0.1 exactly otherwise. |
| Layout.JitterOffset | components/ParticleSystem.tsx:80-82 | `(u − 0.5)·jitter` on one axis. Its properties are stated by `Layout.JitterBounds`. |
| Layout.JitterBounds | components/ParticleSystem.tsx:80-82 | One jitter offset `(u − 0.5)·j` lies in [−j/2, j/2). |
| Layout.TreeJitterBounds | components/ParticleSystem.tsx:79-83 | The jitter added on each of the three axes lies in [−j/2, j/2). |
| Layout.ScatterRadius | components/ParticleSystem.tsx:86 | The scatter radius `max(height, 15)` is at least 15 and at least the layer height. |
| Layout.ScatterPosition | components/ParticleSystem.tsx:86-95 | The scatter point in spherical coordinates. Its properties are stated by `Layout.ScatterNorm`, `Layout.ScatterInSphere` and `Layout.ScatterAngles`. |
| Layout.ScatterAzimuth | components/ParticleSystem.tsx:87 | `u·2·PI`. `Layout.ScatterAngles` states that it lies in [0, 2π). |
| Layout.ScatterPolar | components/ParticleSystem.tsx:88 | `acos(2u − 1)`. `Layout.ScatterAngles` states that it lies in [0, π]. |
| Layout.ScatterDistance | components/ParticleSystem.tsx:89 | `scatterRadius·cbrt(u)`. `Layout.ScatterDistanceBounds` and `Layout.ScatterInSphere` state that it lies in [0, max(height, 15)] and is the point's distance from the origin. |
| Layout.ScatterAngles | components/ParticleSystem.tsx:87-88 | The azimuth `u0·2π` lies in [0, 2π) and the polar angle `acos(2u1 − 1)` in [0, π]. |
| Layout.ScatterDistanceBounds | components/ParticleSystem.tsx:89 | `max(height, 15)·cbrt(u)` lies in [0, max(height, 15)], and so does its square within the square radius. |
| Layout.ScatterNorm | components/ParticleSystem.tsx:87-93 | The scatter point's squared distance from the origin is exactly `r²`. |
| Layout.ScatterInSphere | components/ParticleSystem.tsx:86-95 | The scatter point is at distance `r` from the origin, with `r` in [0, max(height, 15)], so it lies inside the scatter sphere. |
| Layout.AttributeBounds | components/ParticleSystem.tsx:97-109 | Rotation angles lie in [0, π). Scale and speed lie in [0.5, 1). Phase lies in [0, 2π). |
| Layout.RotationAngle | components/ParticleSystem.tsx:98-100 | `u·PI` for each rotation axis. `Layout.AttributeBounds` states that it lies in [0, π). |
| Layout.HalfToOne | components/ParticleSystem.tsx:107-108 | `u·0.5 + 0.5` for scale and speed. `Layout.AttributeBounds` states that it lies in [0.5, 1). |
| Layout.Phase | components/ParticleSystem.tsx:109 | `u·PI·2`. `Layout.AttributeBounds` states that it lies in [0, 2π). |
| Layout.ParticleBounds | components/ParticleSystem.tsx:102-110 | About one generated particle: its id is its index, and its tree position is `TreeBase` plus jitter within [−j/2, j/2) on each axis. Its scatter point is inside the scatter sphere, and rotation, scale, speed and phase stay in their ranges. The tree base itself is covered by `Layout.TreeBaseBounds`. |
| Layout.DrawIsUnit | components/ParticleSystem.tsx:47 | Helper: every draw the generator takes from the stream is in [0, 1). |
| Layout.DrawBlocksAdjacent | components/ParticleSystem.tsx:39-110 | Helper (index arithmetic): particle i + 1 starts reading the stream right where particle i stopped. |
| Animation.TargetFactor | components/ParticleSystem.tsx:121 | The target is 1 exactly in TREE_SHAPE and 0 exactly in SCATTERED. |
| Animation.MorphRate | components/ParticleSystem.tsx:125 | The easing weight `delta·ANIMATION_SPEED`. It is stated by `Animation.MorphRateUnit` and `ParticleLayer.Layer.Frame`. |
| Animation.MorphStep | components/ParticleSystem.tsx:122-126 | One frame of easing, `lerp(f, target, k)`. Its properties are stated by `Animation.MorphStepContracts`, `Animation.MorphStepContinuous` and `Animation.MorphStepOvershoots`. |
| Animation.MorphRateUnit | components/ParticleSystem.tsx:125 | The weight `delta·1.8` is in [0, 1] exactly when `delta` is in [0, 5/9]. |
| Animation.MorphStepContracts | components/ParticleSystem.tsx:122-126 | For f and k in [0, 1], one step stays in [0, 1]. The distance to the target shrinks by exactly 1 − k. The factor moves toward the target and never passes it. |
| Animation.MorphStepContinuous | components/ParticleSystem.tsx:122-126 | One step moves the factor by exactly k times its distance to the target, so by at most k. This holds whatever the target, including right after a toggle. |
| Animation.MorphStepOvershoots | components/ParticleSystem.tsx:122-126 | With a weight above 1 (a frame longer than 5/9 s), the code as written pushes a factor that is not at its target past it and out of [0, 1]. |
| Animation.MorphAfter | components/ParticleSystem.tsx:116-126 | The factor after n frames with a fixed target and weight: `MorphStep` applied n times to the value the ref keeps. Its properties are stated by `Animation.MorphAfterDistance`, `Animation.MorphAfterMonotone` and `Animation.MorphSettles`. |
| Animation.MorphAfterDistance | components/ParticleSystem.tsx:116-126 | After n frames with a fixed target and weight, the distance to the target is (1 − k)ⁿ times the initial distance. |
| Animation.MorphAfterMonotone | components/ParticleSystem.tsx:116-126 | Frame after frame, the factor stays in [0, 1] and moves monotonically toward the target. |
| Animation.PowBound | components/ParticleSystem.tsx:122-126 | Bernoulli's bound on the easing: (1 − k)ⁿ·(1 + n·k) ≤ 1, and (1 − k)ⁿ is in [0, 1]. |
| Animation.MorphSettles | components/ParticleSystem.tsx:116-126 | After n frames with n·k ≥ 1000, for k in (0, 1] and a start in [0, 1], the factor is within 0.001 of its target. |
| Animation.NoiseAmp | components/ParticleSystem.tsx:140 | `lerp(1.5, 0.05, f)`. Its properties are stated by `Animation.RatesDecrease`. |
| Animation.RotSpeed | components/ParticleSystem.tsx:147 | `lerp(0.5, 0.05, f)`. Its properties are stated by `Animation.RatesDecrease`. |
| Animation.RatesDecrease | components/ParticleSystem.tsx:140-147 | As the factor grows through [0, 1], the float amplitude falls from 1.5 to 0.05 and the spin rate falls from 0.5 to 0.05, both monotonically. |
| Animation.FloatX | components/ParticleSystem.tsx:142 | `cos(time·speed·0.5 + phase)·noiseAmp·0.5`. Its properties are stated by `Animation.FloatBounds`. |
| Animation.FloatY | components/ParticleSystem.tsx:141 | `sin(time·speed + phase)·noiseAmp`. Its properties are stated by `Animation.FloatBounds`. |
| Animation.FloatBounds | components/ParticleSystem.tsx:141-142 | The vertical float is at most the amplitude and the horizontal float at most half of it. |
| Animation.UnitTimes | components/ParticleSystem.tsx:141-157 | Helper (real arithmetic): a value in [−1, 1] times an amplitude a ≥ 0 is at most a in size, and half of it is at most a/2. |
| Animation.PulseBase | components/ParticleSystem.tsx:155-156 | The pulse base is 0.1 exactly for spheres and cubes, and 0.01 exactly for boxes and tetrahedra. |
| Animation.Pulse | components/ParticleSystem.tsx:157 | `1 + sin(time·3 + phase)·pulseBase`. Its properties are stated by `Animation.PulseBounds`. |
| Animation.PulseBounds | components/ParticleSystem.tsx:157 | The pulse stays within the pulse base of 1. |
| Animation.ParticlePosition | components/ParticleSystem.tsx:133-144 | The lerped position plus the float `(floatX, floatY, 0)`. Its properties are stated by `Animation.PositionEndpoints` and `Animation.TransformBounds`. |
| Animation.ParticleRotation | components/ParticleSystem.tsx:147-152 | The base rotation with `time·rotSpeed` added on X and Y. Its properties are stated by `Animation.TransformBounds`. |
| Animation.ParticleScale | components/ParticleSystem.tsx:155-159 | `scale·scaleMult·pulse`. Its properties are stated by `Animation.TransformBounds`. |
| Animation.ParticleTransform | components/ParticleSystem.tsx:130-159 | The transform one frame writes for a particle. Its properties are stated by `Animation.TransformBounds` and `ParticleLayer.FrameInstanceBounds`, and `ParticleLayer.Layer.Frame` writes it to every slot. |
| Animation.PositionEndpoints | components/ParticleSystem.tsx:133-144 | At factor 0 the position is the scatter point plus the float. At factor 1 it is the tree point plus the float. The float adds nothing along Z. |
| Animation.TransformBounds | components/ParticleSystem.tsx:130-159 | Position: within amplitude/2 horizontally and the amplitude vertically of the interpolated point, and equal along Z. Rotation: Z kept, X and Y turned by `time·rotSpeed` with rotSpeed in [0.05, 0.5]. Scale: `scale·scaleMult·pulse` with the pulse in [1 − pb, 1 + pb]. |
| ParticleLayer.Layer.constructor | components/ParticleSystem.tsx:205 | When mounted, the mesh has `count` instances, one per particle. The factor starts at 0, as at line 116. The identity transform the instances hold before their first frame is assumed (three.js behaviour). |
| ParticleLayer.Identity | components/ParticleSystem.tsx:205 | The transform (zero position and rotation, scale 1) assumed in every instance of a newly created mesh. `ParticleLayer.Layer.constructor` states that a mounted mesh starts with it. |
| ParticleLayer.Layer.Frame | components/ParticleSystem.tsx:118-166 | No mesh: nothing changes. Otherwise the factor takes one easing step toward the app state's target, and every slot i holds particle i's transform at the new factor and time. A factor in [0, 1] with `delta` in [0, 5/9] stays in [0, 1]. |
| ParticleLayer.FrameInstanceBounds | components/ParticleSystem.tsx:133-144 | For every factor in [0, 1], a written instance is within 0.75 horizontally and 1.5 vertically of its interpolated point, and on it along Z. |
| JsMath.Lerp | components/ParticleSystem.tsx:122-126 | `lerp(x, y, t)` is x at t = 0 and y at t = 1, and it moves from x by (y − x)·t. |
| JsMath.LerpBetween | components/ParticleSystem.tsx:140-147 | On [0, 1], lerp stays between its endpoints and is monotone in t. |
| JsMath.LerpVectors | components/ParticleSystem.tsx:133-137 | `lerpVectors(a, b, t)` is a at t = 0 and b at t = 1. |
| JsMath.GoldenRatioIdentity | components/ParticleSystem.tsx:36 | φ = (1 + √5)/2 satisfies φ² = φ + 1 and lies in (1.5, 2). |
| JsMath.Max | components/ParticleSystem.tsx:86 | `Math.max(a, b)` is one of a and b and at least both. |
| JsMath.SqrtUnit | components/ParticleSystem.tsx:47 | A square root of a value in [0, 1] is in [0, 1]. |
| JsMath.CbrtUnit | components/ParticleSystem.tsx:89 | A cube root of a value in [0, 1] is in [0, 1]. |
| Constants.TreeLayersWellFormed | constants.ts:26-118 | All seven layers have positive count, radius and height. Only the first (the trunk) is a cylinder. Every layer's scatter radius is 15. |
| Constants.ANIMATION_SPEED | constants.ts:120 | The easing rate 1.8 per second. `Animation.MorphRateUnit` states the 5/9 s frame limit it implies. |
| Constants.TREE_LAYERS | constants.ts:26-118 | The seven layer configurations. `Constants.TreeLayersWellFormed` states their properties. |
| UI.Toggle | components/UI.tsx:27-29 | The click handler always changes the state: it yields SCATTERED exactly when the state was TREE_SHAPE. |
| UI.ToggleInvolutive | components/UI.tsx:27-29 | Two clicks restore the state. |

The tree height band is half-open. The height `t·h − h/2 + yOffset` with
`t = i / count` starts exactly at the bottom of the band but never reaches its
top: the last particle sits `h / count` below it (`Layout.HeightRange`).
These heights, and their strict increase with the index
(`Layout.HeightStrictlyIncreasing`), are before jitter. The generated tree
position adds a vertical jitter of up to half the jitter size (0.2 for box
layers), far more than the height step between neighbours (12/25000 for the
needles), so generated tree positions are not ordered by index and the first
one is not exactly at the bottom.

## Left out

- Rendering: instanced mesh creation, materials, geometry selection and colours (components/ParticleSystem.tsx:168-212). These are three.js and React calls with no behaviour to verify.
- Matrix composition: `dummy.updateMatrix()` and `setMatrixAt` turning position, rotation and scale into a 4×4 matrix (components/ParticleSystem.tsx:161-162). An instance slot holds the position, rotation and scale that compose it.
- `instanceMatrix.needsUpdate` (components/ParticleSystem.tsx:165): a rendering flag.
- The initial instance matrices: the model assumes every instance holds the identity transform before its first frame, as three.js initialises them; nothing in the modelled code sets them.
- The shared `dummy` object: it is overwritten in full before every slot write, so the model computes each transform directly.
- IEEE-754 doubles: the model uses exact reals. `Math.PI` is its shortest round-tripping decimal, 3.141592653589793, taken as an exact real; rounding is not modelled.
- The real definitions of sin, cos, sqrt, cbrt and acos: they are abstract functions. Each property depends only on the laws it names.
- Statistical claims: uniformity over the disk (`sqrt`), the sphere volume (`cbrt`) and polar angles (`acos(2u − 1)`) are properties of distributions, not of single runs.
- Golden-angle distinctness modulo 2π: the general case needs φ to be irrational, which is not proved here. Only the exact angle step is proved.
- `Math.random()` as an ambient source: it is an explicit stream of draws in [0, 1).
- The clock and frame delta: they are inputs to `Layer.Frame`.
- React's `useMemo` dependency tracking and re-rendering: a layer is a class built once from its particles.
- The morph being frame-rate dependent: `Animation.MorphStepOvershoots` proves that frames longer than 5/9 s push a factor that is not at its target past it and out of [0, 1]. The other morph properties assume shorter frames.
- Animation.MorphSettles: the settling bound is stated for any n frames with n·k ≥ 1000, rather than by a computed minimal frame count.
- The other scene files (Experience.tsx, Lights.tsx, Effects.tsx) and App.tsx are not part of this model.
