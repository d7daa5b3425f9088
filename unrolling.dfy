/*
 * The shape shared by both materials' fragment-shader synthesis: a per-light
 * template literal whose holes all hold the light index, unrolled once per
 * light by a `for (let i = 0; i < n; i++) s += `...`` loop, and spliced with
 * the other light kind's section into a fixed frame of GLSL text.
 */
module Unrolling {
  import opened Text

  /** An identifier stem: non-empty and not ending in a digit. */
  type Stem = s: string | s != [] && !IsDigit(s[|s| - 1]) witness "x"

  /**
   * The literal text of a template up to one `${i}` hole. An Ident piece ends
   * with the stem of an identifier that the hole's numeral completes
   * (`pointShadow${i}`); a Bare piece does not (`pointLightShadows[${i}]`).
   */
  datatype Piece = Ident(lead: string, stem: Stem) | Bare(lead: string)

  function Render(p: Piece): string {
    match p
    case Ident(lead, stem) => lead + stem
    case Bare(lead) => lead
  }

  /** A per-light template literal: each piece is followed by a hole, then comes the tail. */
  datatype Template = Template(pieces: seq<Piece>, tail: string)

  /** The type marker that opens the point-light block of both materials. */
  const PointShadowMarker: string := "PointLightShadow "
  /** The type marker that opens the directional-light block of both materials. */
  const DirectionalShadowMarker: string := "DirectionalLightShadow "

  lemma MarkersAreMarkers()
    ensures IsMarker(PointShadowMarker) && IsMarker(DirectionalShadowMarker)
  {
  }

  function Fill(pieces: seq<Piece>, tail: string, d: string): string
    decreases |pieces|
  {
    if pieces == [] then tail else Render(pieces[0]) + d + Fill(pieces[1..], tail, d)
  }

  /** The template literal evaluated with index i in every hole. */
  function Block(t: Template, i: nat): string {
    Fill(t.pieces, t.tail, NatToString(i))
  }

  /** The blocks for the indices 0 .. n-1, in increasing order. */
  function Section(t: Template, n: nat): string {
    if n == 0 then "" else Section(t, n - 1) + Block(t, n - 1)
  }

  /** The loop `let s = ''; for (let i = 0; i < n; i++) { s += block(i) } return s`. */
  method Unroll(t: Template, n: nat) returns (s: string)
    ensures s == Section(t, n)
  {
    s := "";
    var i := 0;
    while i < n
      invariant i <= n && s == Section(t, i)
    {
      s := s + Block(t, i);
      i := i + 1;
    }
  }

  lemma NoLightsNoText(t: Template)
    ensures Section(t, 0) == ""
  {
  }

  /** Sections only grow: the section for i lights is a prefix of the one for n >= i. */
  lemma {:induction false} SectionExtends(t: Template, i: nat, n: nat)
    requires i <= n
    ensures Section(t, i) <= Section(t, n)
    decreases n
  {
    if i < n {
      SectionExtends(t, i, n - 1);
    }
  }

  /** Block i sits in every longer section right after the blocks 0 .. i-1. */
  lemma BlockInSection(t: Template, i: nat, n: nat)
    requires i < n
    ensures OccursAt(Section(t, n), Block(t, i), |Section(t, i)|)
  {
    SectionExtends(t, i + 1, n);
    AfterPrefix(Section(t, n), Section(t, i), Block(t, i));
  }

  /** Block i ends no later than block i' > i starts. */
  lemma BlocksAscend(t: Template, i: nat, i': nat)
    requires i < i'
    ensures |Section(t, i)| + |Block(t, i)| <= |Section(t, i')|
  {
    SectionExtends(t, i + 1, i');
  }

  // ---- marker counting ----

  /** The text up to the first hole, which every block starts with. */
  function Head(t: Template): string {
    if t.pieces == [] then t.tail else Render(t.pieces[0])
  }

  lemma HeadStartsBlock(t: Template, i: nat)
    ensures Head(t) <= Block(t, i)
  {
  }

  /** Every block of t begins a new line. */
  predicate Opens(t: Template) {
    Head(t) != [] && Head(t)[0] == '\n'
  }

  /** Occurrences of p inside the literal pieces and the tail of a template. */
  function PieceCount(pieces: seq<Piece>, tail: string, p: string): nat
    requires p != []
    decreases |pieces|
  {
    if pieces == [] then Count(tail, p) else Count(Render(pieces[0]), p) + PieceCount(pieces[1..], tail, p)
  }

  function PerBlock(t: Template, p: string): nat
    requires p != []
  {
    PieceCount(t.pieces, t.tail, p)
  }

  lemma {:induction false} CountFill(pieces: seq<Piece>, tail: string, d: string, p: string)
    requires IsMarker(p) && d != [] && AllDigits(d)
    ensures Count(Fill(pieces, tail, d), p) == PieceCount(pieces, tail, p)
    decreases |pieces|
  {
    if pieces != [] {
      var r, rest := Render(pieces[0]), Fill(pieces[1..], tail, d);
      CountFill(pieces[1..], tail, d, p);
      CountAfterDigits(d, rest, p);
      assert d[0] == (d + rest)[0];
      SafeSeamAtDigitOrNewline(r, d + rest, p);
      CountAppend(r, d + rest, p);
      assert Fill(pieces, tail, d) == r + (d + rest);
    }
  }

  /** A run of digits in front of a text adds no marker. */
  lemma CountAfterDigits(d: string, rest: string, p: string)
    requires IsMarker(p) && d != [] && AllDigits(d)
    ensures Count(d + rest, p) == Count(rest, p)
  {
    SafeSeamAtDigitOrNewline(d, rest, p);
    CountAppend(d, rest, p);
    CountNoMarkerInDigits(d, p);
  }

  lemma CountNoMarkerInDigits(d: string, p: string)
    requires IsMarker(p) && AllDigits(d)
    ensures Count(d, p) == 0
  {
    CountZero(d, p);
    forall k: nat ensures !OccursAt(d, p, k) {
      if k < |d| {
        assert IsDigit(d[k]);
      }
    }
  }

  /** Every block of a template holds the same number of markers, whatever its index. */
  lemma CountBlock(t: Template, i: nat, p: string)
    requires IsMarker(p)
    ensures Count(Block(t, i), p) == PerBlock(t, p)
  {
    CountFill(t.pieces, t.tail, NatToString(i), p);
  }

  /** A section of n blocks holds n times the markers of one block. */
  lemma {:induction false} CountSection(t: Template, n: nat, p: string)
    requires IsMarker(p) && Opens(t)
    ensures Count(Section(t, n), p) == n * PerBlock(t, p)
    decreases n
  {
    if n > 0 {
      CountSection(t, n - 1, p);
      CountNextBlock(t, n - 1, p);
      Scaled(n - 1, PerBlock(t, p));
    }
  }

  /** Block i adds one block's worth of markers to the section before it. */
  lemma CountNextBlock(t: Template, i: nat, p: string)
    requires IsMarker(p) && Opens(t)
    ensures Count(Section(t, i + 1), p) == Count(Section(t, i), p) + PerBlock(t, p)
  {
    var b := Block(t, i);
    CountBlock(t, i, p);
    HeadStartsBlock(t, i);
    assert b[0] == Head(t)[0];
    CountBeforeLine(Section(t, i), b, p);
  }

  /** A section is empty or starts a new line. */
  lemma SectionOpens(t: Template, n: nat)
    requires Opens(t)
    ensures Section(t, n) == [] || Section(t, n)[0] == '\n'
  {
    if n > 0 {
      SectionExtends(t, 1, n);
      HeadStartsBlock(t, 0);
    }
  }

  // ---- the whole fragment shader ----

  /** The fixed GLSL text of a fragment shader around its two light sections. */
  datatype Frame = Frame(prefix: string, mid: string, suffix: string)

  /** Both holes of the frame that the sections fill are followed by a new line. */
  predicate FrameSeams(f: Frame) {
    f.mid != [] && f.mid[0] == '\n' && f.suffix != [] && f.suffix[0] == '\n'
  }

  /** The frame with the point section in its first hole and the directional section in its second. */
  function Assemble(f: Frame, point: Template, n: nat, dir: Template, m: nat): string {
    f.prefix + Section(point, n) + f.mid + Section(dir, m) + f.suffix
  }

  /**
   * The marker count of the whole shader is the count of the bare frame plus
   * one block's worth for every light.
   */
  lemma CountAssemble(f: Frame, point: Template, n: nat, dir: Template, m: nat, p: string)
    requires IsMarker(p) && Opens(point) && Opens(dir) && FrameSeams(f)
    ensures Count(Assemble(f, point, n, dir, m), p)
         == Count(Assemble(f, point, 0, dir, 0), p) + n * PerBlock(point, p) + m * PerBlock(dir, p)
  {
    CountParts(f, point, n, dir, m, p);
    CountParts(f, point, 0, dir, 0, p);
    CountSection(point, n, p);
    CountSection(dir, m, p);
  }

  /** The marker count of the assembled shader is the sum over its five parts. */
  lemma CountParts(f: Frame, point: Template, n: nat, dir: Template, m: nat, p: string)
    requires IsMarker(p) && Opens(point) && Opens(dir) && FrameSeams(f)
    ensures Count(Assemble(f, point, n, dir, m), p)
         == Count(f.prefix, p) + Count(Section(point, n), p) + Count(f.mid, p)
          + Count(Section(dir, m), p) + Count(f.suffix, p)
  {
    var ps, ds := Section(point, n), Section(dir, m);
    SectionOpens(point, n);
    SectionOpens(dir, m);
    // seams, left to right; each is closed by a line break on its right
    var x1 := f.prefix + ps;
    CountBeforeLine(f.prefix, ps, p);
    var x2 := x1 + f.mid;
    CountBeforeLine(x1, f.mid, p);
    var x3 := x2 + ds;
    CountBeforeLine(x2, ds, p);
    CountBeforeLine(x3, f.suffix, p);
  }

  /** Appending text that is empty or starts a new line adds its markers and creates none. */
  lemma CountBeforeLine(a: string, b: string, p: string)
    requires IsMarker(p) && (b == [] || b[0] == '\n')
    ensures Count(a + b, p) == Count(a, p) + Count(b, p)
  {
    SafeSeamAtDigitOrNewline(a, b, p);
    CountAppend(a, b, p);
  }

  /** A marker in the text before the first hole occurs in every block. */
  lemma MarkerInHead(t: Template, p: string, k: nat)
    requires p != [] && OccursAt(Head(t), p, k)
    ensures PerBlock(t, p) >= 1
  {
    CountPositive(Head(t), p, k);
  }

  /** Where block i of the point section starts in the assembled shader. */
  function PointOffset(f: Frame, point: Template, i: nat): nat {
    |f.prefix| + |Section(point, i)|
  }

  /** Where block j of the directional section starts in the assembled shader. */
  function DirOffset(f: Frame, point: Template, n: nat, dir: Template, j: nat): nat {
    |f.prefix| + |Section(point, n)| + |f.mid| + |Section(dir, j)|
  }

  /** Where each part of the assembled shader lies. */
  lemma AssembleParts(f: Frame, point: Template, n: nat, dir: Template, m: nat)
    ensures var s := Assemble(f, point, n, dir, m);
      && |s| == DirOffset(f, point, n, dir, m) + |f.suffix|
      && OccursAt(s, f.prefix, 0)
      && OccursAt(s, Section(point, n), |f.prefix|)
      && OccursAt(s, f.mid, PointOffset(f, point, n))
      && OccursAt(s, Section(dir, m), PointOffset(f, point, n) + |f.mid|)
      && OccursAt(s, f.suffix, DirOffset(f, point, n, dir, m))
  {
    Parts5(f.prefix, Section(point, n), f.mid, Section(dir, m), f.suffix);
  }

  /** Point block i sits at its offset, inside the point section. */
  lemma PointBlockAt(f: Frame, point: Template, n: nat, dir: Template, m: nat, i: nat)
    requires i < n
    ensures OccursAt(Assemble(f, point, n, dir, m), Block(point, i), PointOffset(f, point, i))
    ensures PointOffset(f, point, i) + |Block(point, i)| <= PointOffset(f, point, n)
  {
    AssembleParts(f, point, n, dir, m);
    BlockInSection(point, i, n);
    OccursWithin(Assemble(f, point, n, dir, m), Section(point, n), |f.prefix|, Block(point, i), |Section(point, i)|);
  }

  /** Directional block j sits at its offset, inside the directional section. */
  lemma DirBlockAt(f: Frame, point: Template, n: nat, dir: Template, m: nat, j: nat)
    requires j < m
    ensures OccursAt(Assemble(f, point, n, dir, m), Block(dir, j), DirOffset(f, point, n, dir, j))
    ensures DirOffset(f, point, n, dir, j) + |Block(dir, j)| <= DirOffset(f, point, n, dir, m)
  {
    AssembleParts(f, point, n, dir, m);
    BlockInSection(dir, j, m);
    OccursWithin(Assemble(f, point, n, dir, m), Section(dir, m), PointOffset(f, point, n) + |f.mid|,
                 Block(dir, j), |Section(dir, j)|);
  }

  /**
   * Layout: after the prefix come the point blocks in index order, then the
   * directional blocks in index order, and the suffix closes the text.
   */
  lemma BlocksInOrder(f: Frame, point: Template, n: nat, dir: Template, m: nat, i: nat, j: nat)
    requires i < n && j < m
    ensures var s := Assemble(f, point, n, dir, m);
      && OccursAt(s, Block(point, i), PointOffset(f, point, i))
      && OccursAt(s, Block(dir, j), DirOffset(f, point, n, dir, j))
      && |f.prefix| <= PointOffset(f, point, i)
      && PointOffset(f, point, i) + |Block(point, i)| <= DirOffset(f, point, n, dir, j)
      && DirOffset(f, point, n, dir, j) + |Block(dir, j)| + |f.suffix| <= |s|
      && OccursAt(s, f.suffix, |s| - |f.suffix|)
  {
    AssembleParts(f, point, n, dir, m);
    PointBlockAt(f, point, n, dir, m, i);
    DirBlockAt(f, point, n, dir, m, j);
  }

  /** The fixed prefix opens the assembled text. */
  lemma PrefixOpens(f: Frame, point: Template, n: nat, dir: Template, m: nat)
    ensures OccursAt(Assemble(f, point, n, dir, m), f.prefix, 0)
  {
    AssembleParts(f, point, n, dir, m);
  }

  // ---- the light counts are recoverable from the text ----

  /**
   * The shader text determines the light counts it was built from, provided
   * the frame tells a point block from what follows the point section
   * (the mid text and then a new line) and a directional block from the suffix.
   */
  lemma AssembleInjective(f: Frame, point: Template, dir: Template, kp: nat, kd: nat,
                          n: nat, m: nat, n': nat, m': nat)
    requires Opens(dir) && FrameSeams(f)
    requires kp < |Head(point)| && kp <= |f.mid| && (f.mid + "\n")[kp] != Head(point)[kp]
    requires kd < |Head(dir)| && kd < |f.suffix| && f.suffix[kd] != Head(dir)[kd]
    requires Assemble(f, point, n, dir, m) == Assemble(f, point, n', dir, m')
    ensures n == n' && m == m'
  {
    if n < n' {
      PointsDiverge(f, point, dir, kp, n, n', m, m');
    } else if n' < n {
      PointsDiverge(f, point, dir, kp, n', n, m', m);
    } else if m < m' {
      DirsDiverge(f, point, dir, kd, n, m, m');
    } else if m' < m {
      DirsDiverge(f, point, dir, kd, n, m', m);
    }
  }

  /** Right after the point section comes the mid text, and then a line break. */
  lemma MidThenLineBreak(f: Frame, point: Template, n: nat, dir: Template, m: nat, k: nat)
    requires Opens(dir) && FrameSeams(f) && k <= |f.mid|
    ensures var s := Assemble(f, point, n, dir, m);
      PointOffset(f, point, n) + k < |s| && s[PointOffset(f, point, n) + k] == (f.mid + "\n")[k]
  {
    var s, c := Assemble(f, point, n, dir, m), PointOffset(f, point, n);
    AssembleParts(f, point, n, dir, m);
    if k < |f.mid| {
      OccursChar(s, f.mid, c, k);
    } else {
      SectionOpens(dir, m);
      if Section(dir, m) != [] {
        OccursChar(s, Section(dir, m), c + |f.mid|, 0);
      } else {
        OccursChar(s, f.suffix, c + |f.mid|, 0);
      }
    }
  }

  /** With fewer point lights, the character where the extra block would show its head differs. */
  lemma PointsDiverge(f: Frame, point: Template, dir: Template, kp: nat, n: nat, n': nat, m: nat, m': nat)
    requires Opens(dir) && FrameSeams(f) && n < n'
    requires kp < |Head(point)| && kp <= |f.mid| && (f.mid + "\n")[kp] != Head(point)[kp]
    ensures Assemble(f, point, n, dir, m) != Assemble(f, point, n', dir, m')
  {
    var a, b := Assemble(f, point, n, dir, m), Assemble(f, point, n', dir, m');
    var c := PointOffset(f, point, n);
    // in b, block n starts at c and begins with the head
    PointBlockAt(f, point, n', dir, m', n);
    HeadStartsBlock(point, n);
    OccursChar(b, Block(point, n), c, kp);
    // in a, the mid text and a line break start at c
    MidThenLineBreak(f, point, n, dir, m, kp);
    assert a[c + kp] != b[c + kp];
  }

  /** With fewer directional lights, the character where the extra block would show its head differs. */
  lemma DirsDiverge(f: Frame, point: Template, dir: Template, kd: nat, n: nat, m: nat, m': nat)
    requires m < m'
    requires kd < |Head(dir)| && kd < |f.suffix| && f.suffix[kd] != Head(dir)[kd]
    ensures Assemble(f, point, n, dir, m) != Assemble(f, point, n, dir, m')
  {
    var a, b := Assemble(f, point, n, dir, m), Assemble(f, point, n, dir, m');
    var c := DirOffset(f, point, n, dir, m);
    // in b, block m starts at c and begins with the head
    DirBlockAt(f, point, n, dir, m', m);
    HeadStartsBlock(dir, m);
    OccursChar(b, Block(dir, m), c, kd);
    // in a, the suffix starts at c
    AssembleParts(f, point, n, dir, m);
    OccursChar(a, f.suffix, c, kd);
    assert a[c + kd] != b[c + kd];
  }

  // ---- index-suffixed identifiers ----

  /** The identifiers that block i completes with its index numeral. */
  function IndexedNames(t: Template, i: nat): set<string> {
    set k | 0 <= k < |t.pieces| && t.pieces[k].Ident? :: t.pieces[k].stem + NatToString(i)
  }

  /** Blocks for distinct indices share no index-suffixed identifier, even across templates. */
  lemma NamesDisjoint(t: Template, u: Template, i: nat, j: nat)
    requires i != j
    ensures IndexedNames(t, i) !! IndexedNames(u, j)
  {
    forall x | x in IndexedNames(t, i) && x in IndexedNames(u, j)
      ensures false
    {
      var a :| 0 <= a < |t.pieces| && t.pieces[a].Ident? && x == t.pieces[a].stem + NatToString(i);
      var b :| 0 <= b < |u.pieces| && u.pieces[b].Ident? && x == u.pieces[b].stem + NatToString(j);
      StemNumeralUnique(t.pieces[a].stem, i, u.pieces[b].stem, j);
    }
  }

  lemma StemNumeralUnique(s1: Stem, i: nat, s2: Stem, j: nat)
    requires s1 + NatToString(i) == s2 + NatToString(j)
    ensures i == j && s1 == s2
  {
    var x := s1 + NatToString(i);
    var di, dj := NatToString(i), NatToString(j);
    DigitSuffixOfName(s1, di);
    DigitSuffixOfName(s2, dj);
    assert di == x[|x| - |di|..];
    assert dj == x[|x| - |dj|..];
    NatToStringInjective(i, j);
    assert s1 == x[..|x| - |di|] == s2;
  }

  /** Every index-suffixed identifier of block i is spelled out in the block's text. */
  lemma NamesOccur(t: Template, i: nat, name: string)
    requires name in IndexedNames(t, i)
    ensures exists k: nat :: OccursAt(Block(t, i), name, k)
  {
    var a :| 0 <= a < |t.pieces| && t.pieces[a].Ident? && name == t.pieces[a].stem + NatToString(i);
    var d := NatToString(i);
    var pre := PieceInFill(t.pieces, t.tail, d, a);
    var lead, stem := t.pieces[a].lead, t.pieces[a].stem;
    AfterPrefix(Block(t, i), pre + lead, stem + d);
    assert pre + lead + (stem + d) <= Block(t, i);
  }

  /** Piece a, followed by the numeral, is spelled out in the filled template, between the fill of the pieces before it and the fill of those after it. */
  lemma {:induction false} PieceInFill(pieces: seq<Piece>, tail: string, d: string, a: nat) returns (pre: string)
    requires a < |pieces|
    ensures Fill(pieces, tail, d) == pre + (Render(pieces[a]) + d) + Fill(pieces[a + 1..], tail, d)
    decreases a
  {
    var head := Render(pieces[0]) + d;
    FillUnfolds(pieces, tail, d);
    if a == 0 {
      pre := "";
      assert pieces[1..] == pieces[a + 1..];
      Regroup(pre, head, Fill(pieces[1..], tail, d));
    } else {
      var pre' := PieceInFill(pieces[1..], tail, d, a - 1);
      assert pieces[1..][a - 1] == pieces[a] && pieces[1..][a..] == pieces[a + 1..];
      pre := head + pre';
      Regroup3(head, pre', Render(pieces[a]) + d, Fill(pieces[a + 1..], tail, d));
    }
  }

  lemma FillUnfolds(pieces: seq<Piece>, tail: string, d: string)
    requires pieces != []
    ensures Fill(pieces, tail, d) == (Render(pieces[0]) + d) + Fill(pieces[1..], tail, d)
  {
  }

  // ---- the program parameters that onBeforeCompile reads and writes ----

  /** The light counts three.js hands to `onBeforeCompile`, and the source it takes back. */
  class ProgramParameters {
    var numPointLights: nat
    var numDirLights: nat
    var fragmentShader: string

    constructor (numPointLights: nat, numDirLights: nat)
      ensures this.numPointLights == numPointLights && this.numDirLights == numDirLights
      ensures fragmentShader == ""
    {
      this.numPointLights := numPointLights;
      this.numDirLights := numDirLights;
      fragmentShader := "";
    }
  }

  // ---- a material: its frame and its two per-light templates ----

  datatype Material = Material(frame: Frame, point: Template, dir: Template)

  /** The fragment shader of a material for the given light counts. */
  function Shader(mat: Material, numPointLights: nat, numDirLights: nat): string {
    Assemble(mat.frame, mat.point, numPointLights, mat.dir, numDirLights)
  }

  /**
   * What the theorems below need of a material's literals: blocks and the
   * text after each section start a new line, each block names its light
   * type before its first hole, and a block can be told apart from the text
   * that follows its section.
   */
  predicate WellFormed(mat: Material) {
    && Opens(mat.point) && Opens(mat.dir) && FrameSeams(mat.frame)
    && (exists k: nat | k <= |Head(mat.point)| :: OccursAt(Head(mat.point), PointShadowMarker, k))
    && (exists k: nat | k <= |Head(mat.dir)| :: OccursAt(Head(mat.dir), DirectionalShadowMarker, k))
    && (exists k: nat :: k < |Head(mat.point)| && k <= |mat.frame.mid|
                      && (mat.frame.mid + "\n")[k] != Head(mat.point)[k])
    && (exists k: nat :: k < |Head(mat.dir)| && k < |mat.frame.suffix|
                      && mat.frame.suffix[k] != Head(mat.dir)[k])
  }

  /** WellFormed from explicit witnesses: where each marker sits, and where each seam differs from a block head. */
  lemma WellFormedAt(mat: Material, ip: nat, id: nat, kp: nat, kd: nat)
    requires Opens(mat.point) && Opens(mat.dir) && FrameSeams(mat.frame)
    requires OccursAt(Head(mat.point), PointShadowMarker, ip)
    requires OccursAt(Head(mat.dir), DirectionalShadowMarker, id)
    requires kp < |Head(mat.point)| && kp <= |mat.frame.mid| && (mat.frame.mid + "\n")[kp] != Head(mat.point)[kp]
    requires kd < |Head(mat.dir)| && kd < |mat.frame.suffix| && mat.frame.suffix[kd] != Head(mat.dir)[kd]
    ensures WellFormed(mat)
  {
  }

  /** `#generatePointLighting`: one point block per point light. */
  method GeneratePointLighting(mat: Material, shader: ProgramParameters) returns (pointLighting: string)
    ensures pointLighting == Section(mat.point, shader.numPointLights)
    ensures shader.numPointLights == 0 ==> pointLighting == ""
  {
    pointLighting := Unroll(mat.point, shader.numPointLights);
  }

  /** `#generateDirectionalLighting`: one directional block per directional light. */
  method GenerateDirectionalLighting(mat: Material, shader: ProgramParameters) returns (directionalLighting: string)
    ensures directionalLighting == Section(mat.dir, shader.numDirLights)
    ensures shader.numDirLights == 0 ==> directionalLighting == ""
  {
    directionalLighting := Unroll(mat.dir, shader.numDirLights);
  }

  /** `#generateFragmentShader`: the fixed text with both sections spliced in. */
  method GenerateFragmentShader(mat: Material, shader: ProgramParameters) returns (fragmentShader: string)
    ensures fragmentShader == Shader(mat, shader.numPointLights, shader.numDirLights)
  {
    var pointLighting := GeneratePointLighting(mat, shader);
    var directionalLighting := GenerateDirectionalLighting(mat, shader);
    fragmentShader := mat.frame.prefix + pointLighting + mat.frame.mid + directionalLighting + mat.frame.suffix;
  }

  /** `onBeforeCompile`: replaces the program's fragment source and nothing else. */
  method OnBeforeCompile(mat: Material, shader: ProgramParameters)
    modifies shader`fragmentShader
    ensures shader.fragmentShader == Shader(mat, shader.numPointLights, shader.numDirLights)
    ensures shader.numPointLights == old(shader.numPointLights) && shader.numDirLights == old(shader.numDirLights)
  {
    shader.fragmentShader := GenerateFragmentShader(mat, shader);
  }

  /**
   * Each light adds the markers of one block: on top of the text without
   * lights, the point-light type name appears at least once more for every
   * point light and the directional one for every directional light.
   */
  lemma MarkerCounts(mat: Material, n: nat, m: nat)
    requires WellFormed(mat)
    ensures Count(Shader(mat, n, m), PointShadowMarker)
         == Count(Shader(mat, 0, 0), PointShadowMarker)
            + n * PerBlock(mat.point, PointShadowMarker) + m * PerBlock(mat.dir, PointShadowMarker)
    ensures Count(Shader(mat, n, m), DirectionalShadowMarker)
         == Count(Shader(mat, 0, 0), DirectionalShadowMarker)
            + n * PerBlock(mat.point, DirectionalShadowMarker) + m * PerBlock(mat.dir, DirectionalShadowMarker)
    ensures PerBlock(mat.point, PointShadowMarker) >= 1 && PerBlock(mat.dir, DirectionalShadowMarker) >= 1
  {
    MarkersAreMarkers();
    CountAssemble(mat.frame, mat.point, n, mat.dir, m, PointShadowMarker);
    CountAssemble(mat.frame, mat.point, n, mat.dir, m, DirectionalShadowMarker);
    var kp: nat :| kp <= |Head(mat.point)| && OccursAt(Head(mat.point), PointShadowMarker, kp);
    var kd: nat :| kd <= |Head(mat.dir)| && OccursAt(Head(mat.dir), DirectionalShadowMarker, kd);
    MarkerInHead(mat.point, PointShadowMarker, kp);
    MarkerInHead(mat.dir, DirectionalShadowMarker, kd);
  }

  /** Hence the shader names the point-light type at least n times and the directional one at least m times. */
  lemma AtLeastOneMarkerPerLight(mat: Material, n: nat, m: nat)
    requires WellFormed(mat)
    ensures Count(Shader(mat, n, m), PointShadowMarker) >= n
    ensures Count(Shader(mat, n, m), DirectionalShadowMarker) >= m
  {
    MarkerCounts(mat, n, m);
    var pp, dp := PerBlock(mat.point, PointShadowMarker), PerBlock(mat.point, DirectionalShadowMarker);
    var pd, dd := PerBlock(mat.dir, PointShadowMarker), PerBlock(mat.dir, DirectionalShadowMarker);
    Scaled(n, pp);
    Scaled(m, dd);
    Scaled(m, pd);
    Scaled(n, dp);
  }

  lemma Scaled(n: nat, k: nat)
    ensures n * k >= 0 && (k >= 1 ==> n * k >= n)
    ensures n * k + k == (n + 1) * k
  {
    if k >= 1 {
      assert n * k == n + n * (k - 1);
    }
  }

  /**
   * The fixed prefix opens the text; point block i comes before point block
   * i' > i; every point block comes before every directional block; the fixed
   * suffix closes the text.
   */
  lemma Layout(mat: Material, n: nat, m: nat, i: nat, i': nat, j: nat)
    requires i < i' < n && j < m
    ensures var s, f := Shader(mat, n, m), mat.frame;
      && OccursAt(s, f.prefix, 0)
      && OccursAt(s, Block(mat.point, i), PointOffset(f, mat.point, i))
      && OccursAt(s, Block(mat.point, i'), PointOffset(f, mat.point, i'))
      && OccursAt(s, Block(mat.dir, j), DirOffset(f, mat.point, n, mat.dir, j))
      && |f.prefix| <= PointOffset(f, mat.point, i)
      && PointOffset(f, mat.point, i) + |Block(mat.point, i)| <= PointOffset(f, mat.point, i')
      && PointOffset(f, mat.point, i') + |Block(mat.point, i')| <= DirOffset(f, mat.point, n, mat.dir, j)
      && DirOffset(f, mat.point, n, mat.dir, j) + |Block(mat.dir, j)| + |f.suffix| <= |s|
      && OccursAt(s, f.suffix, |s| - |f.suffix|)
  {
    BlocksInOrder(mat.frame, mat.point, n, mat.dir, m, i, j);
    BlocksInOrder(mat.frame, mat.point, n, mat.dir, m, i', j);
    BlocksAscend(mat.point, i, i');
    PrefixOpens(mat.frame, mat.point, n, mat.dir, m);
  }

  /** For any light counts, the prefix opens the text, the point section follows it, the directional section follows the mid text, and the suffix closes the text. */
  lemma FrameEncloses(mat: Material, n: nat, m: nat)
    ensures var s, f := Shader(mat, n, m), mat.frame;
      && OccursAt(s, f.prefix, 0)
      && OccursAt(s, Section(mat.point, n), |f.prefix|)
      && OccursAt(s, Section(mat.dir, m), PointOffset(f, mat.point, n) + |f.mid|)
      && OccursAt(s, f.suffix, |s| - |f.suffix|)
  {
    AssembleParts(mat.frame, mat.point, n, mat.dir, m);
  }

  /** The source is a function of the two light counts, and it tells them apart. */
  lemma ShaderDeterminesCounts(mat: Material, n: nat, m: nat, n': nat, m': nat)
    requires WellFormed(mat)
    ensures Shader(mat, n, m) == Shader(mat, n', m') <==> n == n' && m == m'
  {
    if Shader(mat, n, m) == Shader(mat, n', m') {
      var kp: nat :| kp < |Head(mat.point)| && kp <= |mat.frame.mid|
                     && (mat.frame.mid + "\n")[kp] != Head(mat.point)[kp];
      var kd: nat :| kd < |Head(mat.dir)| && kd < |mat.frame.suffix|
                     && mat.frame.suffix[kd] != Head(mat.dir)[kd];
      AssembleInjective(mat.frame, mat.point, mat.dir, kp, kd, n, m, n', m');
    }
  }
}
