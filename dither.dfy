/*
 * The ordered-dither offset that both fragment shaders compute first
 * (`ditherMatrix`, `getDitherValue` and `ditherOffset`). Pixel coordinates
 * come from `ivec2(gl_FragCoord.xy)`, whose components are never negative,
 * so they are natural numbers here and GLSL's `%` is Dafny's.
 */
module Dither {
  /** `ditherMatrix` exactly as the shaders write it. */
  const Matrix: seq<real> := [
    0.0, 0.5, 0.125, 0.625,
    0.75, 0.25, 0.875, 0.375,
    0.1875, 0.6875, 0.0625, 0.5625,
    0.9375, 0.4375, 0.8125, 0.3125
  ]

  /** The same table counted in sixteenths. */
  const Sixteenths: seq<nat> := [0, 8, 2, 10, 12, 4, 14, 6, 3, 11, 1, 9, 15, 7, 13, 5]

  /** `ditheringLevels`. */
  const DitheringLevels: real := 1.0 / 10.0

  /** Every entry of the shader table is its count of sixteenths over 16. */
  lemma MatrixInSixteenths()
    ensures |Matrix| == |Sixteenths| == 16
    ensures forall k :: 0 <= k < 16 ==> Matrix[k] == Sixteenths[k] as real / 16.0
  {
  }

  /** The counts are a permutation of 0..15: each value appears, at exactly one place. */
  lemma SixteenthsArePermutation()
    ensures forall v :: 0 <= v < 16 ==> v in Sixteenths
    ensures forall k :: 0 <= k < 16 ==> Sixteenths[k] < 16
    ensures forall j, k :: 0 <= j < k < 16 ==> Sixteenths[j] != Sixteenths[k]
  {
    forall v | 0 <= v < 16
      ensures v in Sixteenths
    {
      assert Sixteenths[Place(v)] == v;
    }
    PlaceInverts();
  }

  /** `Place` undoes the table, so no two slots hold the same value. */
  lemma PlaceInverts()
    ensures forall k :: 0 <= k < 16 ==> Place(Sixteenths[k]) == k
  {
  }

  /** Where value `v` sits in the table: the inverse of the permutation. */
  function Place(v: nat): (k: nat)
    requires v < 16
    ensures k < 16 && Sixteenths[k] == v
  {
    [0, 10, 2, 8, 5, 15, 7, 13, 1, 11, 3, 9, 4, 14, 6, 12][v]
  }

  /** The 2×2 Bayer matrix, row `y`, column `x`. */
  function Bayer2(x: nat, y: nat): (v: nat)
    requires x < 2 && y < 2
    ensures v < 4
  {
    if y == 0 then (if x == 0 then 0 else 2) else (if x == 0 then 3 else 1)
  }

  /** The 4×4 Bayer matrix by the usual recursion: the coarse 2×2 pattern on the low bits, refined by the high bits. */
  function Bayer4(x: nat, y: nat): (v: nat)
    requires x < 4 && y < 4
    ensures v < 16
  {
    4 * Bayer2(x % 2, y % 2) + Bayer2(x / 2, y / 2)
  }

  /** `index` in `getDitherValue`: the pixel's column and row within its 4×4 tile, row-major. */
  function Index(x: nat, y: nat): (index: nat)
    ensures index < 16
    ensures index % 4 == x % 4 && index / 4 == y % 4
  {
    (x % 4) + (y % 4) * 4
  }

  /** Two pixels share an index exactly when they sit at the same place of their tiles. */
  lemma IndexIdentifiesTilePosition(x: nat, y: nat, x': nat, y': nat)
    ensures Index(x, y) == Index(x', y') <==> x % 4 == x' % 4 && y % 4 == y' % 4
  {
  }

  /** Every table slot is reached by some pixel of the first tile. */
  lemma IndexCoversTable(k: nat)
    requires k < 16
    ensures Index(k % 4, k / 4) == k
  {
  }

  /** The table is the standard 4×4 Bayer matrix. */
  lemma TableIsBayer(x: nat, y: nat)
    ensures Sixteenths[Index(x, y)] == Bayer4(x % 4, y % 4)
  {
    var i, j := x % 4, y % 4;
    assert Index(x, y) == i + 4 * j;
    if j == 0 {
      if i == 0 {} else if i == 1 {} else if i == 2 {} else {}
    } else if j == 1 {
      if i == 0 {} else if i == 1 {} else if i == 2 {} else {}
    } else if j == 2 {
      if i == 0 {} else if i == 1 {} else if i == 2 {} else {}
    } else {
      if i == 0 {} else if i == 1 {} else if i == 2 {} else {}
    }
  }

  /** `getDitherValue`: the table entry less a half. */
  function DitherValue(x: nat, y: nat): (v: real)
    ensures -0.5 <= v <= 0.4375
    ensures v == (Sixteenths[Index(x, y)] as real - 8.0) / 16.0
  {
    MatrixInSixteenths();
    Matrix[Index(x, y)] - 0.5
  }

  /** `ditherOffset` in `main`: the dither value scaled by `ditheringLevels`. */
  function Offset(x: nat, y: nat): (d: real)
    ensures -0.05 <= d <= 0.04375
    ensures d == (Sixteenths[Index(x, y)] as real - 8.0) / 160.0
  {
    DitherValue(x, y) * DitheringLevels
  }

  /** The offset repeats every four pixels in each direction. */
  lemma OffsetPeriodic(x: nat, y: nat)
    ensures Offset(x + 4, y) == Offset(x, y)
    ensures Offset(x, y + 4) == Offset(x, y)
  {
    assert Index(x + 4, y) == Index(x, y);
    assert Index(x, y + 4) == Index(x, y);
  }

  /** Two different slots of the table hold different values. */
  lemma EntriesDistinct(i: nat, j: nat)
    requires i < 16 && j < 16 && i != j
    ensures Sixteenths[i] != Sixteenths[j]
  {
    PlaceInverts();
    assert Place(Sixteenths[i]) == i && Place(Sixteenths[j]) == j;
  }
}
