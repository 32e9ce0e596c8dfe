# Math map generator (mapgen_math) in Dafny

This project models Minetest's fractal map generator, `MapgenMath`, and
proves properties of the model. The generator fills a chunk of the voxel
buffer with stone, water and air. A fractal "distance evaluator", chosen by
the `mg_math` configuration, decides which voxels are solid. The model has
three parts.

- **Evaluators** (`fractals.dfy`). These are `mengersponge`, `mandelbox` and
  `sphere`, modelled over the reals.
  - Each one is a pure specification function: `MengerSponge`, `Mandelbox`
    and `Sphere`.
  - The two loop evaluators also have an imperative version that runs the
    loop on locals the way the generator does: `EvalMengerSponge` and
    `EvalMandelbox`. Each is proved equal to its specification function.
  - Every comparison against a square root is stated exactly, in squared
    form: `sqrt(s) < t` becomes `t > 0 && s < t*t`. Lemmas show that the
    squared form agrees with the comparison against any non-negative root.
- **Parameter resolution** (`settings.dfy`). The configuration is a
  string-keyed map of numbers, plus an optional generator name and an
  optional center.
  - `MapgenMathParams.ReadParams` models `readParams`.
  - `Resolve` is a declarative table of what the constructor leaves in the
    generator's fields, one rule per field and generator kind. Its lemmas
    cover per-kind defaults, key precedence, center precedence, the
    unknown-generator case and a round trip through the resolved keys.
- **The generator object** (`mapgen.dfy`, `terrain.dfy`, `voxels.dfy`).
  - The constructor of `MapgenMath` overwrites the parameters in the same
    order as the source. It is proved to produce `Resolve` of the
    configuration it was given.
  - `GenerateTerrain` runs the z, x, y loops over the chunk. It writes the
    buffer `VoxelManipulator.data` (an `array`) in place and advances the
    offset by the x-extent per y step.
  - `GenerateTerrain` is proved to leave exactly the buffer that
    `Materialise` describes. `Materialise` applies the solidity test and the
    three-way stone / water / air rule independently to every voxel of the
    box.

The following constants come from headers that are not part of this model;
the values used are those of the engine:

- `MAP_GENERATION_LIMIT` = 31000;
- `CONTENT_AIR` = 126;
- `CONTENT_IGNORE` = 127.

The voxel buffer's layout is assumed to be the usual one: x varies fastest,
then y, then z. Under that layout `add_y` adds the x-extent. The node ids of
stone and water are parameters of the constructor. The chunk bounds and the
water level are parameters of `GenerateTerrain`.

The model follows the code as written, including these places where its behaviour is surprising:

- the mandelbox generator reads its `distance` from the `"size"` member
  (src/mapgen_math.cpp:200);
- the generic `scale` default is taken from the generic size, before the
  generator's own size replaces it (src/mapgen_math.cpp:163-164);
- an unrecognised generator leaves `internal` at 0;
- the mandelbox block reads `invert` twice, and the second read (default
  false) wins.

Because of the `"size"` read, resolving the serialised parameters of a
mandelbox configuration without `"size"` does not give them back; see
`ResolveSerializeRoundTrip`.

## Model

| member | source | states |
|---|---|---|
| `Fractals.MengerFoldSorts` | src/mapgen_math.cpp:105-123 | after fabs and the three conditional swaps, x >= y >= z >= 0, and the result is a permutation (multiset) of the absolute values |
| `Fractals.MengerLoopFacts` | src/mapgen_math.cpp:104-132 | the loop leaves a state that fails its guard unchanged; it only counts up, never past MI, and stops before MI only once r >= 9; r stays the squared radius of the point |
| `Fractals.MengerLoopFollowsOrbit` | src/mapgen_math.cpp:104-132 | the loop's point after i rounds is the i-th point of the reference orbit, and it stops before MI only at an orbit point with squared radius >= 9 |
| `Fractals.MengerLoopStopsAtFirstEscape` | src/mapgen_math.cpp:104 | every orbit point before the stopping round is still inside the bailout radius, so the loop stops at the first escape |
| `Fractals.MengerIterationBounds` | src/mapgen_math.cpp:100-104 | the final counter satisfies 0 <= i <= MI for MI >= 0; it is 0 when MI <= 0 or when the initial x²+y²+z² >= 9, and then the point is unchanged |
| `Fractals.MengerVerdictSound` | src/mapgen_math.cpp:133 | the squared-form test agrees with `sqrt(r) * pow(3, -i) < d` for any non-negative root of r |
| `Fractals.MengerSponge` | src/mapgen_math.cpp:99-134 | the evaluator returns 0 or 1 |
| `Fractals.MengerSpongeEscaped` | src/mapgen_math.cpp:99-134 | a point starting outside the bailout radius is judged on its own length against d |
| `Fractals.EvalMengerSponge` | src/mapgen_math.cpp:99-134 | the loop over locals x, y, z, r, i returns exactly the specification function's verdict |
| `Fractals.BoxFoldBounds` | src/mapgen_math.cpp:60-72 | the box fold never moves a coordinate away from 0, and maps [-3, 3] into [-1, 1] |
| `Fractals.NextFixedRadius2Grows` | src/mapgen_math.cpp:82-86 | for positive fixedRadius2 the update never decreases it, and increases it exactly in the branch minRadius2 <= r2 < fixedRadius2 |
| `Fractals.BoxStepRadius` | src/mapgen_math.cpp:59-93 | one round never decreases fixedRadius2 and increases it exactly when the folded point's r2 lies in [minRadius2, fixedRadius2) |
| `Fractals.InvertDerivativeGrows` | src/mapgen_math.cpp:77-81 | while fixedRadius2 >= 1, the inversion never shrinks a positive dr |
| `Fractals.BoxStepDerivative` | src/mapgen_math.cpp:74-92 | while fixedRadius2 >= 1, one round at least doubles a positive dr |
| `Fractals.BoxIterateInvariant` | src/mapgen_math.cpp:59-93 | over n rounds fixedRadius2 never decreases, dr >= dr0 * 2^n, and dr stays positive |
| `Fractals.Mandelbox` | src/mapgen_math.cpp:40-97 | the evaluator returns 0 or 1 |
| `Fractals.BoxInsideSound` | src/mapgen_math.cpp:94-95 | with dr > 0 the squared-form test is the quotient test `r / fabs(dr) < d` for any non-negative root r |
| `Fractals.MandelboxDerivativePositive` | src/mapgen_math.cpp:51-93 | after any number of rounds from dr = 1 and fixedRadius2 = 1, dr is positive |
| `Fractals.MandelboxVerdictSound` | src/mapgen_math.cpp:40-97 | after the run dr > 0, and the result is 1 exactly when `r / fabs(dr) < 7 * d` |
| `Fractals.MandelboxNoRounds` | src/mapgen_math.cpp:41-59 | the point and d are multiplied by 7 once; with no rounds the factors cancel and the verdict is the sphere's |
| `Fractals.InvertSphere` | src/mapgen_math.cpp:74-87 | the three inversion branches leave x, y, z, dr and fixedRadius2 as the inversion functions of the folded point give them |
| `Fractals.EvalMandelbox` | src/mapgen_math.cpp:40-97 | the loop over locals runs nn rounds (none when nn <= 0) and returns exactly the specification function's verdict |
| `Fractals.Sphere` | src/mapgen_math.cpp:136-138 | the evaluator returns 0 or 1 |
| `Fractals.SphereSound` | src/mapgen_math.cpp:136-138 | the result is 1 exactly when the point's length is below d |
| `Fractals.SphereExamples` | src/mapgen_math.cpp:136-138 | the origin is in the sphere of radius 5; (10, 0, 0) and (3, 4, 0) are not |
| `Fractals.Evaluate` | src/mapgen_math.cpp:357-358 | whichever evaluator `func` is bound to, its answer is 0 or 1 |
| `Fractals.EvaluateZeroDistance` | src/mapgen_math.cpp:40-138 | with distance 0 every evaluator answers 0 |
| `Fractals.CallEvaluator` | src/mapgen_math.cpp:358 | the call through `func` returns the bound evaluator's verdict |
| `Settings.AsInt` | src/mapgen_math.cpp:166 | asInt truncates toward zero: the result is within 1 of the value, no larger in magnitude, and has its sign |
| `Settings.Reciprocal` | src/mapgen_math.cpp:164 | for a non-zero size, the result times the size is 1 |
| `Settings.KindOf` | src/mapgen_math.cpp:173-207 | the recognised kinds correspond to exactly the names "mengersponge", "mandelbox" and "sphere" |
| `Settings.WithDefaultGenerator` | src/mapgen_math.cpp:172 | the generator is written only when it is absent; the other members are kept |
| `Settings.KindCenter` | src/mapgen_math.cpp:185-206 | a given non-zero center is kept; while the center is absent or zero, mengersponge sets (-size, -size, -size) and mandelbox (0.3 size, -0.6 size, 0.5 size); the other kinds keep the given center, or zero when none is given |
| `Settings.ResolveCenter` | src/mapgen_math.cpp:303 | the fallback applies only when no center is given: a given center is left to the kind's block (kept verbatim when non-zero, and always for sphere and unknown generators); without one, a result still zero after the kind's block becomes (3, -size - 5 + 10 * invert, 3), which it always is for sphere and unknown generators, so the result is never zero |
| `Settings.Resolve` | src/mapgen_math.cpp:161-216 | a present invert, size, scale or iterations member always wins, and so does a present distance member except for mandelbox, which takes "size". Missing members take the defaults, per kind and in any configuration: invert true only for mengersponge; size 15000, 1000, 100 or 30000; scale 1 for sphere, otherwise the reciprocal of the "size" member, or 1/30000 without one; iterations 10; distance 0.0003 for mengersponge, 0.01 for mandelbox without "size", the resolved size for sphere, and the scale for an unknown generator. The center follows `ResolveCenter`. internal holds exactly for the three known names, each binding its own evaluator; any other name binds the sphere |
| `Settings.ResolveDefaults` | src/mapgen_math.cpp:162-213 | the default table of an empty configuration for each kind: size, distance, scale, center, iterations 10, invert true only for mengersponge |
| `Settings.AbsentGeneratorKinds` | src/mapgen_math.cpp:145-173 | with no generator the constructor dispatches as mandelbox, while after readParams it dispatches as mengersponge with the menger evaluator bound |
| `Settings.DefaultGeneratorNeutral` | src/mapgen_math.cpp:172 | writing "mandelbox" back into a configuration does not change what it resolves to |
| `Settings.UnknownGenerator` | src/mapgen_math.cpp:169-170 | an unrecognised name leaves internal unset with the sphere function bound and reads invert with default false |
| `Settings.Serialize` | src/mapgen_math.cpp:161-167 | not an operation of the source (`writeParams` saves `params` unchanged): the inverse of these reads, there to state the round trip. The configuration names the generator, the center and exactly the keys invert, size, scale, iterations and distance |
| `Settings.ResolveSerializeRoundTrip` | src/mapgen_math.cpp:198-200 | resolving the serialised parameters gives them back exactly, unless the generator is mandelbox and "size" is absent |
| `Settings.MapgenMathParams.ReadParams` | src/mapgen_math.cpp:143-148 | the configuration is the stored one with "mengersponge" written only when no generator is set; it returns true |
| `Voxels.IndexInRange` | src/mapgen_math.cpp:349 | a coordinate inside the area has an offset in 0 .. volume-1 |
| `Voxels.DecodeIndex` | src/mapgen_math.cpp:349 | the coordinate is recovered from its offset |
| `Voxels.IndexDecode` | src/mapgen_math.cpp:349-369 | every offset of the buffer is the offset of one coordinate of the area |
| `Voxels.IndexInjective` | src/mapgen_math.cpp:349 | no two coordinates of the area share an offset |
| `Voxels.IndexNextY` | src/mapgen_math.cpp:369 | one step in y moves the offset by the x-extent |
| `Terrain.MaterialiseAt` | src/mapgen_math.cpp:359-368 | outside the box a voxel is unchanged; a solid voxel becomes stone only over CONTENT_IGNORE and is otherwise kept; a non-solid voxel becomes water at or below the water level and air above it |
| `Terrain.MaterialiseEmptyBox` | src/mapgen_math.cpp:346-350 | if min > max on any axis nothing is written |
| `Terrain.MaterialiseIdempotent` | src/mapgen_math.cpp:359-368 | running the pass twice gives what one pass gives when stone is not CONTENT_IGNORE |
| `Terrain.InvertFlipComplements` | src/mapgen_math.cpp:359 | flipping invert complements solidity at every voxel |
| `Terrain.ExternalSolidIffInvert` | src/mapgen_math.cpp:345-359 | without an internal evaluator every voxel is solid exactly when invert is set |
| `Terrain.UnknownGeneratorSolidIffInvert` | src/mapgen_math.cpp:169-170 | for an unrecognised generator a voxel is solid exactly when the invert member (default false) is set |
| `Terrain.ZeroDistanceSolidIffInvert` | src/mapgen_math.cpp:357-359 | with distance 0 solidity follows invert alone |
| `Terrain.ProgressStart` | src/mapgen_math.cpp:346 | before the first voxel the buffer is unchanged |
| `Terrain.ProgressUnvisited` | src/mapgen_math.cpp:360 | a voxel not yet visited still holds its original content when the loop reaches it |
| `Terrain.ProgressStep` | src/mapgen_math.cpp:359-369 | visiting a voxel writes its generated content at its own offset and changes no other cell |
| `Terrain.ProgressSame` | src/mapgen_math.cpp:346-347 | loop positions that have visited the same voxels of the box describe the same buffer |
| `Terrain.ProgressEnd` | src/mapgen_math.cpp:346-372 | after the last z layer the buffer is the materialised one |
| `Mapgen.MapgenMath.constructor` | src/mapgen_math.cpp:157-216 | the fields end up as Resolve of the configuration (including the center fallback of line 303), and the configuration gets "mandelbox" written only when no generator is set |
| `Mapgen.MapgenMath.SampleVoxel` | src/mapgen_math.cpp:351-358 | the sampled `d` is the evaluator's answer at the voxel's fractal coordinates, or the unchanged 0 when not internal |
| `Mapgen.MapgenMath.GenerateTerrain` | src/mapgen_math.cpp:314-418 | returns 0 and leaves the buffer equal to Materialise of the old buffer: every voxel of the box is written once by the rule, and no cell outside the box changes |

## Left out

- Floating point: doubles and the `v3f` floats are reals, so IEEE rounding is not modelled. `sqrt`, `pow(3, -i)` and `fabs` in the final comparisons are stated exactly, in squared form.
- `Settings.Reciprocal`: `(double)1 / size` with size 0 gives 0 here rather than IEEE infinity.
- `Settings.AsInt`: jsoncpp's range check in `asInt` (it fails for values outside the 32-bit range) is not modelled; the result is the unbounded truncation.
- The mandelbulber integration under `FRACTAL_H_` (the extra generators, the `Compute<normal>` sampler and the extra parameters) depends on an external library that is not part of this model.
- The `#if 0` alternate sampler and the commented debug output are dead code.
- JSON and settings I/O: `getJson`, `setJson` and `writeParams` are not modelled. `ReadParams` takes the stored configuration as a parameter.
- JSON type coercions are reduced to numbers. A null, false or true member reads as 0, 0 or 1. A string, array or object where a number is expected, a non-string generator and a center that is not an object are not modelled.
- The `float` precision of the center members (`asFloat`) is not modelled.
- `MG_NOLIGHT`, node light values and the `MapgenV7` base class are collaborators that are not part of this model. The stone and water node ids are constructor parameters; the chunk bounds, the buffer and the water level are parameters of `GenerateTerrain`.
- The `VoxelArea` index layout and `add_y` come from a header that is not part of this model. A standard x-fastest layout is assumed rather than verified.
- Reading a stored center with `params["center"]["x"]` (non-const `operator[]`) adds null `x`, `y` and `z` members to a center object that lacks them, which changes what `writeParams` saves later. A `Config` center reads a missing member as 0 either way, so the model drops that side effect.
- `Settings.MapgenMathParams.constructor` and `Voxels.VoxelManipulator.constructor` stand for nothing in the source. They are fixtures that let callers of the model create the objects that the engine creates elsewhere.
- The `center` field is assumed to start as the zero vector (irrlicht's default-constructed `v3f`).
- The unused `index` counter, `getGroundLevelAtPoint` and the empty destructor are trivial or unused.
- The `s16` loop counters are unbounded integers, so the wrap-around a box ending at 32767 would cause is not modelled.
- `Mapgen.MapgenMath.constructor`: the overwrites of `invert`, `size`, `scale`, `center`, `iterations`, `distance`, `internal` and `func` happen in source order on locals of the same names, and the fields are assigned once at the end. The final state is the same.
- `Mapgen.MapgenMath.SampleVoxel`: the sampling step of the innermost loop body is a separate method. It is called exactly where the source computes `vec` and calls `(*func)`.
- `Fractals.InvertSphere`: the sphere-inversion block of mandelbox's loop is a separate method, called where the block stands.
- `Mapgen.MapgenMath.GenerateTerrain`: the contract gives the final buffer rather than each write: every cell of the box ends as the rule applied to its original content.
