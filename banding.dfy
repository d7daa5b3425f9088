/*
 * The per-light arithmetic that the unrolled blocks of both materials emit:
 * the alignment term plus the dither offset, clamped at zero and quantised
 * to `levels` bands, then the colour the light adds. The toon blocks use
 * `NdotP`/`NdotD` as written; the water blocks negate them and leave the
 * shadow factor out. Sampled and intrinsic values (shadow intensities,
 * light colours, the `pow(distance, 2.0)` falloff, which is positive for a
 * light away from the fragment) are inputs.
 */
module Banding {
  /** `levels` in both shaders. */
  const Levels: real := 3.0

  function Max(a: real, b: real): (m: real)
    ensures m >= a && m >= b && (m == a || m == b)
  {
    if a >= b then a else b
  }

  /** `max(a + d, 0.0)`, then `floor(_ * levels) / levels`. */
  function Band(a: real, d: real): (b: real)
  {
    (Max(a + d, 0.0) * Levels).Floor as real / Levels
  }

  /** A band is a whole number of thirds, never negative, and at most one third below the clamped intensity. */
  lemma BandIsQuantised(a: real, d: real)
    ensures Band(a, d) >= 0.0
    ensures (Band(a, d) * Levels).Floor as real == Band(a, d) * Levels
    ensures Band(a, d) <= Max(a + d, 0.0) < Band(a, d) + 1.0 / Levels
  {
  }

  /** Flooring keeps order. */
  lemma FloorMonotone(x: real, y: real)
    requires x <= y
    ensures x.Floor <= y.Floor
  {
    assert x.Floor as real <= x <= y < y.Floor as real + 1.0;
  }

  /** More alignment never gives a darker band. */
  lemma BandMonotone(a: real, a': real, d: real)
    requires a <= a'
    ensures Band(a, d) <= Band(a', d)
  {
    FloorMonotone(Max(a + d, 0.0) * Levels, Max(a' + d, 0.0) * Levels);
  }

  /** An alignment of 0.9 with no dither lands in the two-thirds band. */
  lemma BandOfNinetyPercent()
    ensures Band(0.9, 0.0) == 2.0 / 3.0
  {
    assert Max(0.9, 0.0) * Levels == 2.7;
    assert (2.7).Floor == 2;
  }

  /** The band is clamped only from below: it stays at most 1 exactly while the dithered alignment is below 4/3. */
  lemma BandAtMostOne(a: real, d: real)
    ensures Band(a, d) <= 1.0 <==> a + d < 4.0 / 3.0
  {
    BandIsQuantised(a, d);
    if a + d >= 4.0 / 3.0 {
      FloorMonotone(4.0, Max(a + d, 0.0) * Levels);
      assert (4.0).Floor == 4;
    }
  }

  /** The water blocks band `-NdotP + ditherOffset` (and the same for `NdotD`). */
  function WaterBand(ndot: real, d: real): real
  {
    Band(-ndot, d)
  }

  /** So water light gets no brighter as the surface turns towards the light: the reverse of toon. */
  lemma WaterBandAntitone(ndot: real, ndot': real, d: real)
    requires ndot <= ndot'
    ensures WaterBand(ndot', d) <= WaterBand(ndot, d)
  {
    BandMonotone(-ndot', -ndot, d);
  }

  datatype Rgb = Rgb(r: real, g: real, b: real)

  function Scale(c: Rgb, k: real): Rgb
  {
    Rgb(c.r * k, c.g * k, c.b * k)
  }

  function Add(c: Rgb, e: Rgb): Rgb
  {
    Rgb(c.r + e.r, c.g + e.g, c.b + e.b)
  }

  predicate NonNegative(c: Rgb)
  {
    c.r >= 0.0 && c.g >= 0.0 && c.b >= 0.0
  }

  const Black: Rgb := Rgb(0.0, 0.0, 0.0)

  /** What toon point light `i` adds to `pointLight`: colour × band × shadow / falloff, where the falloff is `pow(pointLightDistance, 2.0)`. */
  function ToonPoint(color: Rgb, ndotP: real, d: real, shadow: real, falloff: real): (c: Rgb)
    requires falloff > 0.0
  {
    Scale(color, Band(ndotP, d) * shadow / (falloff))
  }

  /** What toon directional light `i` adds to `directionalLight`: colour × band × shadow. */
  function ToonDirectional(color: Rgb, ndotD: real, d: real, shadow: real): (c: Rgb)
  {
    Scale(color, Band(ndotD, d) * shadow)
  }

  /** What water point light `i` adds to `pointLight`: colour × band / falloff, no shadow factor. */
  function WaterPoint(color: Rgb, ndotP: real, d: real, falloff: real): (c: Rgb)
    requires falloff > 0.0
  {
    Scale(color, WaterBand(ndotP, d) / (falloff))
  }

  /** What water directional light `i` adds to `directionalLight`: colour × band, no shadow factor. */
  function WaterDirectional(color: Rgb, ndotD: real, d: real): (c: Rgb)
  {
    Scale(color, WaterBand(ndotD, d))
  }

  /** A fully shadowed toon light adds nothing. */
  lemma ToonShadowedIsDark(color: Rgb, ndotP: real, ndotD: real, d: real, falloff: real)
    requires falloff > 0.0
    ensures ToonPoint(color, ndotP, d, 0.0, falloff) == Black
    ensures ToonDirectional(color, ndotD, d, 0.0) == Black
  {
  }

  /** A water light is a toon light with the alignment negated and the shadow factor fixed at one, whatever the shadow map says. */
  lemma WaterIgnoresShadow(color: Rgb, ndotP: real, ndotD: real, d: real, falloff: real)
    requires falloff > 0.0
    ensures WaterPoint(color, ndotP, d, falloff) == ToonPoint(color, -ndotP, d, 1.0, falloff)
    ensures WaterDirectional(color, ndotD, d) == ToonDirectional(color, -ndotD, d, 1.0)
  {
  }

  lemma ScaleNonNegative(c: Rgb, k: real)
    requires NonNegative(c) && k >= 0.0
    ensures NonNegative(Scale(c, k))
  {
  }

  /** Toon lights with non-negative colours and shadows never subtract light. */
  lemma ToonPointNonNegative(color: Rgb, ndotP: real, d: real, shadow: real, falloff: real)
    requires NonNegative(color) && shadow >= 0.0 && falloff > 0.0
    ensures NonNegative(ToonPoint(color, ndotP, d, shadow, falloff))
  {
    BandIsQuantised(ndotP, d);
    var k := Band(ndotP, d) * shadow;
    assert k >= 0.0;
    QuotientOfNonNegatives(k, falloff);
    ScaleNonNegative(color, k / falloff);
  }

  lemma QuotientOfNonNegatives(k: real, q: real)
    requires k >= 0.0 && q > 0.0
    ensures k / q >= 0.0
  {
  }

  /** One light of an unrolled section, as seen from the fragment being shaded. */
  datatype Light = Light(color: Rgb, ndot: real, shadow: real, falloff: real)

  /** The `pointLight` accumulator after the toon section has run over `lights`, in block order. */
  function ToonPointSum(lights: seq<Light>, d: real): (c: Rgb)
    requires forall i :: 0 <= i < |lights| ==> lights[i].falloff > 0.0
  {
    if lights == [] then Black
    else
      var l := lights[|lights| - 1];
      Add(ToonPointSum(lights[..|lights| - 1], d), ToonPoint(l.color, l.ndot, d, l.shadow, l.falloff))
  }

  /** The `pointLight` accumulator after the water section has run over `lights`, in block order. */
  function WaterPointSum(lights: seq<Light>, d: real): (c: Rgb)
    requires forall i :: 0 <= i < |lights| ==> lights[i].falloff > 0.0
  {
    if lights == [] then Black
    else
      var l := lights[|lights| - 1];
      Add(WaterPointSum(lights[..|lights| - 1], d), WaterPoint(l.color, l.ndot, d, l.falloff))
  }

  /** The toon point sum is never negative when colours and shadows are not. */
  lemma {:induction false} ToonPointSumNonNegative(lights: seq<Light>, d: real)
    requires forall i :: 0 <= i < |lights| ==> lights[i].falloff > 0.0
    requires forall i :: 0 <= i < |lights| ==> NonNegative(lights[i].color) && lights[i].shadow >= 0.0
    ensures NonNegative(ToonPointSum(lights, d))
  {
    if lights != [] {
      var l := lights[|lights| - 1];
      ToonPointSumNonNegative(lights[..|lights| - 1], d);
      ToonPointNonNegative(l.color, l.ndot, d, l.shadow, l.falloff);
    }
  }

  /** The water point sum does not depend on the shadow intensities of its lights. */
  lemma {:induction false} WaterPointSumIgnoresShadow(lights: seq<Light>, lights': seq<Light>, d: real)
    requires |lights| == |lights'|
    requires forall i :: 0 <= i < |lights| ==> lights[i].falloff > 0.0
    requires forall i :: 0 <= i < |lights| ==>
      lights'[i] == lights[i].(shadow := lights'[i].shadow)
    ensures forall i :: 0 <= i < |lights'| ==> lights'[i].falloff > 0.0
    ensures WaterPointSum(lights, d) == WaterPointSum(lights', d)
  {
    if lights != [] {
      var n := |lights| - 1;
      assert lights'[n] == lights[n].(shadow := lights'[n].shadow);
      WaterPointSumIgnoresShadow(lights[..n], lights'[..n], d);
    }
  }
}
