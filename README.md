# Car game: shader synthesis, banded lighting, water compositing and driver input

This project models two parts of a small car game in Dafny.

The first part is the web renderer's two materials. Both `CustomToonMaterial` and `WaterMaterial` build their
GLSL fragment shader as text in `onBeforeCompile`. The text is a fixed frame with two holes. One point-light
block is unrolled per point light and one directional-light block per directional light, and the light index
`${i}` is spliced into every identifier and array subscript. The arithmetic those shaders run is modelled as
well:

- the ordered-dither offset;
- the per-light banding into three levels;
- the light accumulation (toon lights use the shadow factor, water lights ignore it and flip the alignment);
- the water compositor: depth linearisation, the four-neighbour scan, the edge tests, the three-way
  reflection priority and the dithered foam.

The second part is the native game's input handling: `processInput` over the globals `gear` and `maxThrottle`,
driving the `Car` object's throttle, brake and steering through its setters and getters.

Files:

- `text.dfy` (`Text`): the decimal numeral of a light index, its parse, and counting occurrences of a marker in a text.
- `unrolling.dfy` (`Unrolling`): the shape both materials share.
  - A template is literal pieces, each followed by a `${i}` hole. Unrolling it gives a section.
  - The frame holds the two sections. `onBeforeCompile` fills the program parameters' `fragmentShader`.
  - The theorems about counting, order, names and determinism are generic over any material whose literals
    are `WellFormed`.
- `toon_material.dfy` (`ToonMaterial`) and `water_material.dfy` (`WaterMaterial`): the two materials' literal
  text, character for character, and the proof that each is `WellFormed`.
- `dither.dfy` (`Dither`): `ditherMatrix`, `getDitherValue` and `ditherOffset`.
- `banding.dfy` (`Banding`): the banded intensity and what each light adds to `pointLight` and `directionalLight`.
- `water_compositor.dfy` (`WaterCompositor`): the water shader's `main` after the light sections.
- `car.dfy` (`Cars`): the `Car` class (fields of `include/car.h`), its constructor, setters and getters, and `signum`.
- `input.dfy` (`Input`): `processInput` as the `Driver` class, and the main loop's repeated calls as `Drive`.

GLSL and C++ `float` values are Dafny `real`s. Pixel coordinates are never negative, so GLSL's `%` on them is
Dafny's `%`. Sampled textures, light colours, shadow intensities and the mouse-derived steering angle are
inputs.

Two facts about the arithmetic are worth knowing up front:

- The dither value lies in [-0.5, 0.4375], an asymmetric range (`Dither.DitherValue`).
- The band is clamped only from below. It is at most 1 exactly when alignment plus dither offset is below 4/3,
  in particular whenever the alignment is at most 1 (`Banding.BandAtMostOne`).

## Model

| member | source | states |
|---|---|---|
| Text.NatToString | web/src/routes/CustomToonMaterial.ts:76 | `${i}` of a light index is a non-empty run of decimal digits with no leading zero |
| Text.ParseNatToString | web/src/routes/CustomToonMaterial.ts:76 | reading the numeral back gives the index (round trip) |
| Text.NatToStringInjective | web/src/routes/CustomToonMaterial.ts:76 | distinct light indices give distinct numerals |
| Text.CountAppend | web/src/routes/CustomToonMaterial.ts:74-95 | joining two texts at a seam that splits no marker adds their marker counts |
| Unrolling.Unroll | web/src/routes/CustomToonMaterial.ts:73-97 | the `for`/`+=` loop returns the blocks for indices 0 .. n-1 in increasing order |
| Unrolling.NoLightsNoText | web/src/routes/CustomToonMaterial.ts:73-74 | with no lights a section is the empty string |
| Unrolling.SectionExtends | web/src/routes/CustomToonMaterial.ts:74-95 | the section for i lights is a prefix of the section for any n >= i |
| Unrolling.BlockInSection | web/src/routes/CustomToonMaterial.ts:74-95 | block i sits in every longer section right after blocks 0 .. i-1 |
| Unrolling.BlocksAscend | web/src/routes/CustomToonMaterial.ts:74-95 | block i ends no later than block i' > i starts |
| Unrolling.CountBlock | web/src/routes/CustomToonMaterial.ts:75-94 | every block holds the same number of markers, whatever its index |
| Unrolling.CountSection | web/src/routes/CustomToonMaterial.ts:74-95 | a section of n blocks holds n times one block's markers |
| Unrolling.CountAssemble | web/src/routes/CustomToonMaterial.ts:23-67 | the shader's marker count is the frame's plus n and m times the per-block counts |
| Unrolling.GeneratePointLighting | web/src/routes/CustomToonMaterial.ts:72-98 | returns the point section for `numPointLights`, empty for 0 |
| Unrolling.GenerateDirectionalLighting | web/src/routes/CustomToonMaterial.ts:100-143 | returns the directional section for `numDirLights`, empty for 0 |
| Unrolling.GenerateFragmentShader | web/src/routes/CustomToonMaterial.ts:22-70 | the frame with the point section in the first hole and the directional section in the second |
| Unrolling.OnBeforeCompile | web/src/routes/CustomToonMaterial.ts:18-20 | sets `fragmentShader` to the generated source and leaves the light counts alone |
| Unrolling.MarkerCounts | web/src/routes/CustomToonMaterial.ts:23-67 | each light adds one block's markers on top of the light-free text; a block names its own light type at least once |
| Unrolling.AtLeastOneMarkerPerLight | web/src/routes/CustomToonMaterial.ts:76 | `PointLightShadow ` occurs at least `numPointLights` times and `DirectionalLightShadow ` at least `numDirLights` times |
| Unrolling.Layout | web/src/routes/CustomToonMaterial.ts:61-65 | for point blocks i < i' and any directional block j: point block i comes after the prefix and before point block i', which comes before directional block j, and all three come before the suffix |
| Unrolling.FrameEncloses | web/src/routes/CustomToonMaterial.ts:23-67 | for any light counts the prefix opens the text, the point section follows it, the directional section follows the mid text, and the suffix closes the text |
| Unrolling.ShaderDeterminesCounts | web/src/routes/CustomToonMaterial.ts:18-70 | equal light counts give identical source, and identical source means equal light counts |
| Unrolling.NamesDisjoint | web/src/routes/CustomToonMaterial.ts:76-93 | blocks for distinct indices declare no common index-suffixed identifier, even across light types |
| Unrolling.StemNumeralUnique | web/src/routes/CustomToonMaterial.ts:104-119 | an identifier stem followed by a numeral determines both the stem and the index |
| Unrolling.NamesOccur | web/src/routes/CustomToonMaterial.ts:76-93 | every index-suffixed identifier of block i is spelled out in block i |
| ToonMaterial.ToonWellFormed | web/src/routes/CustomToonMaterial.ts:23-139 | the toon literals meet `WellFormed`, so every theorem above holds for the toon shader |
| ToonMaterial.HeadsNameTheirLightType | web/src/routes/CustomToonMaterial.ts:75-76 | each toon block opens with its light type's marker before its first hole |
| ToonMaterial.OnBeforeCompile | web/src/routes/CustomToonMaterial.ts:18-20 | installs the toon shader for the parameters' light counts |
| WaterMaterial.WaterWellFormed | web/src/routes/WaterMaterial.ts:50-258 | the water literals meet `WellFormed`, so every theorem above holds for the water shader |
| WaterMaterial.HeadsNameTheirLightType | web/src/routes/WaterMaterial.ts:213-214 | each water block opens with its light type's marker before its first hole |
| WaterMaterial.OnBeforeCompile | web/src/routes/WaterMaterial.ts:45-47 | installs the water shader for the parameters' light counts |
| Dither.MatrixInSixteenths | web/src/routes/CustomToonMaterial.ts:41-46 | every `ditherMatrix` entry is a whole number of sixteenths |
| Dither.SixteenthsArePermutation | web/src/routes/CustomToonMaterial.ts:41-46 | those sixteenths are 0..15, each exactly once |
| Dither.EntriesDistinct | web/src/routes/WaterMaterial.ts:87-89 | two different slots of the table hold different values |
| Dither.Index | web/src/routes/CustomToonMaterial.ts:49 | the index is below 16; its column is x mod 4 and its row is y mod 4 |
| Dither.IndexIdentifiesTilePosition | web/src/routes/CustomToonMaterial.ts:49 | two pixels share an index exactly when they sit at the same place in their 4×4 tiles |
| Dither.IndexCoversTable | web/src/routes/WaterMaterial.ts:92 | every slot is reached by a pixel of the first tile |
| Dither.TableIsBayer | web/src/routes/CustomToonMaterial.ts:41-50 | the table is the 4×4 Bayer matrix built from the 2×2 one |
| Dither.DitherValue | web/src/routes/CustomToonMaterial.ts:48-51 | the value is (k - 8) / 16 for the slot's sixteenths k, so it lies in [-0.5, 0.4375] |
| Dither.Offset | web/src/routes/WaterMaterial.ts:101-103 | `ditherOffset` is a tenth of that, so it lies in [-0.05, 0.04375] |
| Dither.OffsetPeriodic | web/src/routes/CustomToonMaterial.ts:54-55 | the offset repeats every 4 pixels in x and in y |
| Banding.BandIsQuantised | web/src/routes/CustomToonMaterial.ts:88-90 | the band is non-negative, a whole number of thirds, and within a third below the clamped intensity |
| Banding.BandMonotone | web/src/routes/CustomToonMaterial.ts:113-115 | more alignment never gives a lower band |
| Banding.BandOfNinetyPercent | web/src/routes/CustomToonMaterial.ts:88-90 | alignment 0.9 with no dither gives the 2/3 band |
| Banding.BandAtMostOne | web/src/routes/CustomToonMaterial.ts:88-90 | the band is at most 1 exactly when alignment plus dither offset is below 4/3 |
| Banding.WaterBandAntitone | web/src/routes/WaterMaterial.ts:253-255 | water light never brightens as the surface turns towards the light |
| Banding.ToonShadowedIsDark | web/src/routes/CustomToonMaterial.ts:92-93 | a fully shadowed toon light adds nothing |
| Banding.WaterIgnoresShadow | web/src/routes/WaterMaterial.ts:232-233 | a water light adds what a toon light with negated alignment and shadow 1 adds |
| Banding.ToonPointNonNegative | web/src/routes/CustomToonMaterial.ts:92-93 | with non-negative colour and shadow, a toon point light adds no negative light |
| Banding.ToonPointSumNonNegative | web/src/routes/CustomToonMaterial.ts:74-95 | so the whole toon `pointLight` sum is non-negative |
| Banding.WaterPointSumIgnoresShadow | web/src/routes/WaterMaterial.ts:212-234 | the water `pointLight` sum does not depend on any shadow intensity |
| WaterCompositor.LinearizeEnds | web/src/routes/WaterMaterial.ts:96-98 | `linearize(0) = uNear` and `linearize(1) = uFar` |
| WaterCompositor.LinearizeDefined | web/src/routes/WaterMaterial.ts:96-98 | for 0 < near <= far and depth in [0, 1] the divisor is at least `uNear` |
| WaterCompositor.Clamp | web/src/routes/WaterMaterial.ts:120 | the result lies in [lo, hi], and values already in range are kept |
| WaterCompositor.FoamDepth | web/src/routes/WaterMaterial.ts:118-121 | `zDiff` lies between the displacement and the displacement plus 1 |
| WaterCompositor.Step | web/src/routes/WaterMaterial.ts:163 | `step` yields 1 exactly when the value reaches the edge, else 0 |
| WaterCompositor.Mix | web/src/routes/WaterMaterial.ts:186 | `mix` returns its first colour at 0 and its second at 1 |
| WaterCompositor.Neighbours | web/src/routes/WaterMaterial.ts:131-135 | the four sample points are the centre moved by +`uResolution.w` and -`uResolution.w` vertically, then +`uResolution.z` and -`uResolution.z` horizontally |
| WaterCompositor.Smoothstep | web/src/routes/WaterMaterial.ts:157 | 0 below the lower edge and 1 above the upper edge |
| WaterCompositor.NormalTerm | web/src/routes/WaterMaterial.ts:152-159 | a neighbour whose normal difference leans negative adds nothing, and one that leans positive adds its squared difference |
| WaterCompositor.ScanNeighbours | web/src/routes/WaterMaterial.ts:131-160 | the sample points are the centre's four axis neighbours, and the scan over them gives what `ScanUvs` states, so `nearestUV` is the centre or one of those neighbours |
| WaterCompositor.ScanUvs | web/src/routes/WaterMaterial.ts:137-160 | `depthDiff` is 4·centre minus the neighbour depths; `nearestDepth` is at most the centre and every neighbour; `nearestUV` is the centre if no neighbour is nearer, else the first neighbour at the minimum depth; `normalSum` is the sum of the normal terms |
| WaterCompositor.DepthEdge | web/src/routes/WaterMaterial.ts:162-163 | `depthEdge` is 1 exactly when `depthDiff >= 0.05`, else 0 |
| WaterCompositor.NormalEdge | web/src/routes/WaterMaterial.ts:168-170 | `normalEdge` is 1 exactly when the indicator is at least 0.6, else 0 |
| WaterCompositor.NormalEdgeBySum | web/src/routes/WaterMaterial.ts:169-170 | with the indicator the square root of `normalSum`, the edge is set exactly when `normalSum >= 0.36` |
| WaterCompositor.ReflectionPriority | web/src/routes/WaterMaterial.ts:182-190 | occluder first; else a depth edge gives the neighbour texel × 0.3; else a normal edge darkens (0.3) or lightens (1.5) by the light side; else the texel |
| WaterCompositor.FoamRule | web/src/routes/WaterMaterial.ts:192-199 | pure foam exactly when `zDiff - ditherOffset < 0.25`, otherwise the blue-tinted reflection mix |
| WaterCompositor.DeepWaterHasNoFoam | web/src/routes/WaterMaterial.ts:117-121 | a displaced foam depth of at least 0.3 never foams, whatever the dither |
| WaterCompositor.FragColourNonNegative | web/src/routes/WaterMaterial.ts:201-203 | a non-negative surface under non-negative ambient, directional and point light gives a non-negative colour |
| WaterCompositor.LightingScalesSurface | web/src/routes/WaterMaterial.ts:201-203 | a black surface stays black under any light, and with no light every surface is black |
| Cars.Signum | car.cpp:41 | `signum` is 1 exactly for positive, -1 exactly for negative and 0 exactly for zero arguments |
| Cars.SignumOdd | car.cpp:41 | negating the argument negates the sign |
| Cars.SignumOfProduct | car.cpp:41 | a positive factor does not change the sign |
| Cars.Car.constructor | car.cpp:7-36 | a fresh car has the stated dimensions, is at rest at the origin, and has throttle, brake and steering at 0 |
| Cars.Car.AddThrottle | car.cpp:141 | throttle becomes old throttle plus delta; no other field changes |
| Cars.Car.SetThrottle | car.cpp:143 | overwrites the throttle and nothing else |
| Cars.Car.SetBrake | car.cpp:145 | overwrites the brake and nothing else |
| Cars.Car.SetSteerAngle | car.cpp:147 | overwrites the steering angle and nothing else |
| Cars.Car.GetThrottle | car.cpp:149 | returns the throttle and changes nothing |
| Cars.Car.GetAngle | car.cpp:151 | returns the body angle and changes nothing |
| Cars.Car.GetSteerAngle | car.cpp:153 | returns the steering angle and changes nothing |
| Cars.Car.GetPositionWC | car.cpp:155 | returns the world position and changes nothing |
| Cars.Car.GetVelocityWC | car.cpp:157 | returns the world velocity and changes nothing |
| Input.NextGearInRange | main.cpp:11-21 | the gear stays in 1..4 and moves by at most one, up for D alone below 4 and down for A alone above 1 |
| Input.MaxThrottleFor | main.cpp:23-36 | each gear's ceiling is positive |
| Input.MaxThrottleIncreasing | main.cpp:23-36 | a higher gear has a strictly higher ceiling |
| Input.ThrottleStaysNonNegative | main.cpp:38-62 | a non-negative throttle stays non-negative whatever is pressed |
| Input.ThrottleCappedWhileAccelerating | main.cpp:39-43 | with W held the throttle ends at or under the gear's ceiling |
| Input.AcceleratingRamp | main.cpp:39-43 | W alone adds 20, up to the ceiling |
| Input.CoastingDecay | main.cpp:44-49 | without W the throttle falls by 5 but not below 0 |
| Input.HandbrakeCutsThrottle | main.cpp:60-62 | Space zeroes the throttle whatever else is pressed |
| Input.DownshiftCanExceedCeiling | main.cpp:17-49 | after shifting from 2 to 1 with W released, a throttle of 500 becomes 495, above the new ceiling of 100 |
| Input.Driver.constructor | main.cpp:7-8 | the globals start at gear 1 and ceiling 20 |
| Input.Driver.ShiftGear | main.cpp:11-21 | the D and A tests move the gear as `NextGear` says |
| Input.Driver.SelectCeiling | main.cpp:23-36 | gears 1..4 set the ceiling from the table, and any other gear leaves it |
| Input.Driver.RampThrottle | main.cpp:38-57 | the W ramp with its ceiling clamp, or the decay with its floor, then the S brake-down with its floor |
| Input.Driver.ProcessInput | main.cpp:9-71 | one frame: the new gear, its ceiling, the new throttle, the brake at 1000 or 0 by Space, and the steering angle |
| Input.Drive | main.cpp:88-93 | over any run of frames the gear stays in 1..4, the throttle stays non-negative, holding W keeps it under the ceiling, and the brake follows Space |

## Left out

- Unrolling.MarkerCounts: gives the marker counts as the count of the text without lights plus n and m times a per-block count of at least 1. It does not pin those constants to their values. The exact values are 1 for a block's own light type, 0 for the other type, and 0 in the fixed text. Proving them means scanning several kilobytes of literal text character by character, which is beyond what the verifier does at reasonable cost. For the same reason the model does not show that, with n lights, no identifier with the suffix n appears anywhere in the shader.
- Unrolling.AtLeastOneMarkerPerLight: states "at least n" and "at least m", not "exactly", for the same reason.
- The specular and rim terms of the toon directional block, and the toon `gl_FragColor` line, appear only as emitted text. Their `pow`, `smoothstep` and `normalize` arithmetic is not modelled.
- Shadow sampling (`getShadow`, `getPointShadow`), every `texture2D` lookup, `normalize`, `sqrt` and `pow(distance, 2.0)` are GPU intrinsics. Their results are inputs. The falloff is a positive input, and the normal indicator is an input with the square root as a precondition.
- The mirrored view position in the water point-light direction is not modelled, because the direction only reaches the model through the alignment input.
- The displacement texture lookup, the reflected-UV offset and `ld` are inputs to the water compositor.
- IEEE single-precision rounding, infinities and NaN are not modelled, because every `float` is a Dafny `real`. In particular `signum` of NaN is not covered.
- The `#include` chunks, uniforms and varyings of the frames are literal text only.
- The material constructors (uniform tables, texture loading) and the `console.log` in the water directional generator are not modelled: they are set-up and logging.
- `Water.ts`, `PixelateShaderPass.ts`, `World.ts` and `Ground.ts` are not part of this model. They hold reflection-camera geometry, post-processing plumbing, scene bootstrap and noise-based mesh generation.
- `Car::update` (floating-point vehicle dynamics), `Car::draw`, the car's mesh and model, and raylib in general are not modelled.
- The main loop's window, camera smoothing and HUD are not modelled. `Input.Drive` keeps only the repeated `processInput` calls.
- The mouse-derived steering angle is a parameter of `ProcessInput`, because it is float arithmetic over screen input.
