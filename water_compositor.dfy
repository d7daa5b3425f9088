/*
 * The body of the water fragment shader's `main` after the light sections:
 * depth linearisation, the foam depth, the scan over the four neighbouring
 * texels of the reflection, the edge tests, the three-way choice of the
 * reflection colour and the final mixes. Every `texture2D` lookup is a
 * sampled value handed in by the caller; colours are `Banding.Rgb`.
 */
module WaterCompositor {
  import opened Banding

  /** `linearize`: a depth-buffer value back to a view distance between `uNear` and `uFar`. */
  function Linearize(near: real, far: real, depth: real): (z: real)
    requires far + depth * (near - far) != 0.0
  {
    near * far / (far + depth * (near - far))
  }

  /** The near plane linearises to `uNear` and the far plane to `uFar`. */
  lemma LinearizeEnds(near: real, far: real)
    requires near > 0.0 && far > 0.0
    ensures Linearize(near, far, 0.0) == near
    ensures Linearize(near, far, 1.0) == far
  {
  }

  /** For a camera with `0 < uNear <= uFar`, every buffer depth in [0, 1] is safe to linearise. */
  lemma LinearizeDefined(near: real, far: real, depth: real)
    requires 0.0 < near <= far && 0.0 <= depth <= 1.0
    ensures far + depth * (near - far) >= near
  {
    var gap := far - near;
    assert depth * gap <= gap;
  }

  /** GLSL `clamp`. */
  function Clamp(x: real, lo: real, hi: real): (c: real)
    requires lo <= hi
    ensures lo <= c <= hi
    ensures lo <= x <= hi ==> c == x
  {
    if x < lo then lo else if x > hi then hi else x
  }

  /** `zDiff`: the water depth over the ground below, clamped to [0, 1], then displaced. */
  function FoamDepth(zDepth: real, zPos: real, displacementX: real): (zDiff: real)
    ensures displacementX <= zDiff <= displacementX + 1.0
  {
    Clamp(zDepth - zPos, 0.0, 1.0) + displacementX
  }

  /** GLSL `step`. */
  function Step(edge: real, x: real): (r: real)
    ensures r == 0.0 || r == 1.0
    ensures r == 1.0 <==> x >= edge
  {
    if x < edge then 0.0 else 1.0
  }

  /** GLSL `mix`, channel by channel. */
  function Mix(a: Rgb, b: Rgb, t: real): (c: Rgb)
    ensures t == 0.0 ==> c == a
    ensures t == 1.0 ==> c == b
  {
    Rgb(a.r * (1.0 - t) + b.r * t, a.g * (1.0 - t) + b.g * t, a.b * (1.0 - t) + b.b * t)
  }

  datatype Uv = Uv(u: real, v: real)

  datatype Vec3 = Vec3(x: real, y: real, z: real)

  function Sub(a: Vec3, b: Vec3): (d: Vec3)
  {
    Vec3(a.x - b.x, a.y - b.y, a.z - b.z)
  }

  function Dot(a: Vec3, b: Vec3): (p: real)
  {
    a.x * b.x + a.y * b.y + a.z * b.z
  }

  /** `uvs[0..3]`: one texel up, down, right and left of the centre, a texel being `uResolution.zw`. */
  function Neighbours(centre: Uv, texelU: real, texelV: real): (uvs: seq<Uv>)
    ensures |uvs| == 4
    ensures uvs[0] == Uv(centre.u, centre.v + texelV) && uvs[1] == Uv(centre.u, centre.v - texelV)
    ensures uvs[2] == Uv(centre.u + texelU, centre.v) && uvs[3] == Uv(centre.u - texelU, centre.v)
    ensures forall k :: 0 <= k < 4 ==> (uvs[k].u == centre.u) == (k < 2 || texelU == 0.0)
    ensures forall k :: 0 <= k < 4 ==> (uvs[k].v == centre.v) == (k >= 2 || texelV == 0.0)
  {
    [Uv(centre.u, centre.v + texelV), Uv(centre.u, centre.v - texelV),
     Uv(centre.u + texelU, centre.v), Uv(centre.u - texelU, centre.v)]
  }

  /** GLSL `smoothstep`: zero below `e0`, one above `e1`, the cubic Hermite curve between. */
  function Smoothstep(e0: real, e1: real, x: real): (r: real)
    requires e0 < e1
    ensures x <= e0 ==> r == 0.0
    ensures x >= e1 ==> r == 1.0
  {
    if x <= e0 then 0.0
    else if x >= e1 then 1.0
    else
      var t := (x - e0) / (e1 - e0);
      t * t * (3.0 - 2.0 * t)
  }

  /** What neighbour `offset` adds to `normalSum`: the squared normal difference, counted only where the difference leans positive. */
  function NormalTerm(centre: Vec3, offset: Vec3): (w: real)
    ensures Dot(Sub(centre, offset), Vec3(1.0, 1.0, 1.0)) <= -0.01 ==> w == 0.0
    ensures Dot(Sub(centre, offset), Vec3(1.0, 1.0, 1.0)) >= 0.01 ==> w == Dot(Sub(centre, offset), Sub(centre, offset))
  {
    var diff := Sub(centre, offset);
    Dot(diff, diff) * Smoothstep(-0.01, 0.01, Dot(diff, Vec3(1.0, 1.0, 1.0)))
  }

  function Sum(xs: seq<real>): (s: real)
  {
    if xs == [] then 0.0 else Sum(xs[..|xs| - 1]) + xs[|xs| - 1]
  }

  function NormalSum(centre: Vec3, normals: seq<Vec3>): (s: real)
  {
    if normals == [] then 0.0
    else NormalSum(centre, normals[..|normals| - 1]) + NormalTerm(centre, normals[|normals| - 1])
  }

  /**
   * The `uvs` set-up and the loop over them in `main`. `texelU` and `texelV`
   * are `uResolution.z` and `uResolution.w`; `depths[i]` is the depthless
   * reflector's depth at `uvs[i]` and `normals[i]` its normal there, decoded
   * from the texture with `* 2.0 - 1.0`. So `nearestUV` is the centre or one
   * of its four axis neighbours.
   */
  method ScanNeighbours(centreUv: Uv, texelU: real, texelV: real, centreDepth: real, centreNormal: Vec3,
                        depths: seq<real>, normals: seq<Vec3>)
    returns (uvs: seq<Uv>, depthDiff: real, nearestDepth: real, nearestUv: Uv, normalSum: real)
    requires |depths| == |normals| == 4
    ensures uvs == Neighbours(centreUv, texelU, texelV)
    ensures depthDiff == 4.0 * centreDepth - Sum(depths)
    ensures nearestDepth <= centreDepth
    ensures forall k :: 0 <= k < 4 ==> nearestDepth <= depths[k]
    ensures (forall k :: 0 <= k < 4 ==> centreDepth <= depths[k]) ==>
      nearestDepth == centreDepth && nearestUv == centreUv
    ensures (exists k :: 0 <= k < 4 && depths[k] < centreDepth) ==>
      exists k :: 0 <= k < 4 && nearestDepth == depths[k] && nearestUv == uvs[k] &&
        forall j :: 0 <= j < k ==> depths[k] < depths[j]
    ensures normalSum == NormalSum(centreNormal, normals)
  {
    uvs := Neighbours(centreUv, texelU, texelV);
    depthDiff, nearestDepth, nearestUv, normalSum := ScanUvs(centreUv, centreDepth, centreNormal, uvs, depths, normals);
  }

  /** The `for (int i = 0; i < 4; i++)` loop of `main` over given sample points. */
  method ScanUvs(centreUv: Uv, centreDepth: real, centreNormal: Vec3,
                 uvs: seq<Uv>, depths: seq<real>, normals: seq<Vec3>)
    returns (depthDiff: real, nearestDepth: real, nearestUv: Uv, normalSum: real)
    requires |uvs| == |depths| == |normals| == 4
    ensures depthDiff == 4.0 * centreDepth - Sum(depths)
    ensures nearestDepth <= centreDepth
    ensures forall k :: 0 <= k < 4 ==> nearestDepth <= depths[k]
    ensures (forall k :: 0 <= k < 4 ==> centreDepth <= depths[k]) ==>
      nearestDepth == centreDepth && nearestUv == centreUv
    ensures (exists k :: 0 <= k < 4 && depths[k] < centreDepth) ==>
      exists k :: 0 <= k < 4 && nearestDepth == depths[k] && nearestUv == uvs[k] &&
        forall j :: 0 <= j < k ==> depths[k] < depths[j]
    ensures normalSum == NormalSum(centreNormal, normals)
  {
    depthDiff := 0.0;
    nearestDepth := centreDepth;
    nearestUv := centreUv;
    normalSum := 0.0;
    ghost var nearest := -1;
    for i := 0 to 4
      invariant depthDiff == i as real * centreDepth - Sum(depths[..i])
      invariant normalSum == NormalSum(centreNormal, normals[..i])
      invariant nearestDepth <= centreDepth
      invariant forall k :: 0 <= k < i ==> nearestDepth <= depths[k]
      invariant nearest == -1 ==>
        nearestDepth == centreDepth && nearestUv == centreUv &&
        forall k :: 0 <= k < i ==> centreDepth <= depths[k]
      invariant nearest != -1 ==>
        0 <= nearest < i && nearestDepth == depths[nearest] && nearestUv == uvs[nearest] &&
        nearestDepth < centreDepth && forall j :: 0 <= j < nearest ==> depths[nearest] < depths[j]
    {
      var offsetDepth := depths[i];
      assert depths[..i + 1][..i] == depths[..i];
      depthDiff := depthDiff + (centreDepth - offsetDepth);
      if offsetDepth < nearestDepth {
        nearestDepth := offsetDepth;
        nearestUv := uvs[i];
        nearest := i;
      }
      assert normals[..i + 1][..i] == normals[..i];
      normalSum := normalSum + NormalTerm(centreNormal, normals[i]);
    }
    assert depths[..4] == depths;
    assert normals[..4] == normals;
    if nearest != -1 {
      assert nearestDepth == depths[nearest] && nearestUv == uvs[nearest];
    }
  }

  /** `depthEdge`: set exactly when the centre sits at least 0.05 behind its neighbours in total. */
  function DepthEdge(depthDiff: real): (e: real)
    ensures e == 1.0 <==> depthDiff >= 0.05
    ensures e == 0.0 <==> depthDiff < 0.05
  {
    Step(0.05, depthDiff)
  }

  /** `normalEdge`, from `indicator = sqrt(normalSum)`. */
  function NormalEdge(indicator: real): (e: real)
    ensures e == 1.0 <==> indicator >= 0.6
    ensures e == 0.0 <==> indicator < 0.6
  {
    Step(0.6, indicator)
  }

  /** The square root never has to be taken: the normal edge is set exactly when `normalSum >= 0.36`. */
  lemma NormalEdgeBySum(normalSum: real, indicator: real)
    requires indicator >= 0.0 && indicator * indicator == normalSum
    ensures NormalEdge(indicator) == Step(0.36, normalSum)
  {
    if indicator >= 0.6 {
      assert indicator * indicator >= 0.6 * indicator >= 0.36;
    } else {
      assert indicator * indicator <= 0.6 * indicator < 0.36;
    }
  }

  const DarkenAmount: real := 0.3
  const LightenAmount: real := 1.5

  /**
   * `reflectionColor`. `occluderDepth` and `reflected` are the reflector's
   * depth and diffuse at `nearestUV`; `texel` and `edgeTexel` the depthless
   * diffuse at the centre and at `nearestUV`; `ld` the light's alignment
   * with the centre normal.
   */
  function Reflection(occluderDepth: real, nearestDepth: real, reflected: Rgb,
                      depthDiff: real, indicator: real, texel: Rgb, edgeTexel: Rgb, ld: real): (c: Rgb)
  {
    if occluderDepth + 0.01 < nearestDepth then reflected
    else if DepthEdge(depthDiff) > 0.0 then Mix(texel, Scale(edgeTexel, DarkenAmount), DepthEdge(depthDiff))
    else Mix(texel, Scale(texel, if ld > 0.0 then DarkenAmount else LightenAmount), NormalEdge(indicator))
  }

  /** The three-way priority of the reflection colour. */
  lemma ReflectionPriority(occluderDepth: real, nearestDepth: real, reflected: Rgb,
                           depthDiff: real, indicator: real, texel: Rgb, edgeTexel: Rgb, ld: real)
    ensures var c := Reflection(occluderDepth, nearestDepth, reflected, depthDiff, indicator, texel, edgeTexel, ld);
      && (occluderDepth + 0.01 < nearestDepth ==> c == reflected)
      && (occluderDepth + 0.01 >= nearestDepth && depthDiff >= 0.05 ==> c == Scale(edgeTexel, 0.3))
      && (occluderDepth + 0.01 >= nearestDepth && depthDiff < 0.05 && indicator >= 0.6 ==>
            c == Scale(texel, if ld > 0.0 then 0.3 else 1.5))
      && (occluderDepth + 0.01 >= nearestDepth && depthDiff < 0.05 && indicator < 0.6 ==> c == texel)
  {
  }

  const Blue: Rgb := Rgb(0.0, 0.0, 1.0)
  const Foam: Rgb := Rgb(1.0, 1.0, 1.0)

  /** `color` before lighting: the diffuse half-tinted blue, 40% reflection on top, then foam where the water is shallow. */
  function Surface(diffuse: Rgb, reflection: Rgb, zDiff: real, ditherOffset: real): (c: Rgb)
  {
    var waterColor := Mix(diffuse, Blue, 0.5);
    var color := Mix(waterColor, reflection, 0.4);
    Mix(Foam, color, Step(0.25, zDiff - ditherOffset))
  }

  /** Foam shows exactly where the dithered foam depth is below a quarter; elsewhere the tinted reflection does. */
  lemma FoamRule(diffuse: Rgb, reflection: Rgb, zDiff: real, ditherOffset: real)
    ensures zDiff - ditherOffset < 0.25 ==> Surface(diffuse, reflection, zDiff, ditherOffset) == Foam
    ensures zDiff - ditherOffset >= 0.25 ==>
      Surface(diffuse, reflection, zDiff, ditherOffset) == Mix(Mix(diffuse, Blue, 0.5), reflection, 0.4)
  {
  }

  /** Water that is deep enough never foams: a displaced depth of at least 0.3 beats any dither offset. */
  lemma DeepWaterHasNoFoam(zDepth: real, zPos: real, displacementX: real,
                                              diffuse: Rgb, reflection: Rgb, ditherOffset: real)
    requires ditherOffset <= 0.04375
    requires FoamDepth(zDepth, zPos, displacementX) >= 0.3
    ensures Surface(diffuse, reflection, FoamDepth(zDepth, zPos, displacementX), ditherOffset)
         == Mix(Mix(diffuse, Blue, 0.5), reflection, 0.4)
  {
    FoamRule(diffuse, reflection, FoamDepth(zDepth, zPos, displacementX), ditherOffset);
  }

  function Modulate(a: Rgb, b: Rgb): (c: Rgb)
  {
    Rgb(a.r * b.r, a.g * b.g, a.b * b.b)
  }

  /** `gl_FragColor.rgb`: the surface colour lit by ambient, directional and point light together. */
  function FragColour(surface: Rgb, ambient: Rgb, directional: Rgb, point: Rgb): Rgb
  {
    Modulate(surface, Add(Add(ambient, directional), point))
  }

  /** No channel of the output goes negative while the surface and every light are non-negative. */
  lemma FragColourNonNegative(surface: Rgb, ambient: Rgb, directional: Rgb, point: Rgb)
    requires NonNegative(surface) && NonNegative(ambient) && NonNegative(directional) && NonNegative(point)
    ensures NonNegative(FragColour(surface, ambient, directional, point))
  {
    var light := Add(Add(ambient, directional), point);
    assert NonNegative(light);
    ProductNonNegative(surface.r, light.r);
    ProductNonNegative(surface.g, light.g);
    ProductNonNegative(surface.b, light.b);
  }

  lemma ProductNonNegative(x: real, y: real)
    requires x >= 0.0 && y >= 0.0
    ensures x * y >= 0.0
  {
  }

  /** Lighting only scales the surface: a black surface stays black, and with no light at all every surface is black. */
  lemma LightingScalesSurface(surface: Rgb, ambient: Rgb, directional: Rgb, point: Rgb)
    ensures FragColour(Black, ambient, directional, point) == Black
    ensures FragColour(surface, Black, Black, Black) == Black
  {
  }
}
