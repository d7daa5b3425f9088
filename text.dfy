/*
 * Character-level facts about the GLSL source text that the materials
 * synthesise: the decimal rendering of a light index (JavaScript's `${i}`
 * on a non-negative integer), its inverse, and the number of occurrences
 * of a marker string in a text.
 */
module Text {

  predicate IsDigit(c: char) {
    '0' <= c <= '9'
  }

  predicate AllDigits(s: string) {
    forall k | 0 <= k < |s| :: IsDigit(s[k])
  }

  function DigitChar(d: nat): (c: char)
    requires d < 10
    ensures IsDigit(c) && c as int - '0' as int == d
  {
    ('0' as int + d) as char
  }

  /** The decimal numeral of n, as `${n}` prints a non-negative integer. */
  function NatToString(n: nat): (s: string)
    ensures |s| > 0 && AllDigits(s)
    ensures |s| > 1 ==> s[0] != '0'
    decreases n
  {
    if n < 10 then [DigitChar(n)] else NatToString(n / 10) + [DigitChar(n % 10)]
  }

  /** The value of a string of decimal digits. */
  function ParseDecimal(s: string): (n: nat)
    requires AllDigits(s)
    decreases |s|
  {
    if s == [] then 0
    else ParseDecimal(s[..|s| - 1]) * 10 + (s[|s| - 1] as int - '0' as int)
  }

  /** Reading back the numeral of n gives n. */
  lemma {:induction false} ParseNatToString(n: nat)
    ensures ParseDecimal(NatToString(n)) == n
    decreases n
  {
    var s := NatToString(n);
    if n >= 10 {
      ParseNatToString(n / 10);
      assert s[..|s| - 1] == NatToString(n / 10);
    }
  }

  /** Distinct indices have distinct numerals. */
  lemma NatToStringInjective(i: nat, j: nat)
    ensures NatToString(i) == NatToString(j) <==> i == j
  {
    if NatToString(i) == NatToString(j) {
      ParseNatToString(i);
      ParseNatToString(j);
    }
  }

  /** p occurs in s starting at position k. */
  predicate OccursAt(s: string, p: string, k: nat) {
    k + |p| <= |s| && s[k..k + |p|] == p
  }

  /** The number of positions of s at which p occurs (overlaps included). */
  function Count(s: string, p: string): nat
    requires p != []
    decreases |s|
  {
    if |s| < |p| then 0 else (if s[..|p|] == p then 1 else 0) + Count(s[1..], p)
  }

  /** Count is zero exactly when p occurs nowhere in s. */
  lemma {:induction false} CountZero(s: string, p: string)
    requires p != []
    ensures Count(s, p) == 0 <==> forall k: nat :: !OccursAt(s, p, k)
    decreases |s|
  {
    if |s| >= |p| {
      CountZero(s[1..], p);
      if Count(s, p) == 0 {
        forall k: nat ensures !OccursAt(s, p, k) {
          if k > 0 {
            OccursShift(s, p, k - 1);
          }
        }
      } else {
        if s[..|p|] != p {
          var k: nat :| OccursAt(s[1..], p, k);
          OccursShift(s, p, k);
        } else {
          assert OccursAt(s, p, 0);
        }
      }
    }
  }

  /** An occurrence in the tail of s is an occurrence in s one place later. */
  lemma OccursShift(s: string, p: string, k: nat)
    requires s != []
    ensures OccursAt(s[1..], p, k) <==> OccursAt(s, p, k + 1)
  {
    if k + 1 + |p| <= |s| {
      assert s[1..][k..k + |p|] == s[k + 1..k + 1 + |p|];
    }
  }

  /** A marker: a non-empty pattern with no digit and no line break. */
  predicate IsMarker(p: string) {
    p != [] && forall k | 0 <= k < |p| :: !IsDigit(p[k]) && p[k] != '\n'
  }

  /**
   * No occurrence of p can straddle the seam between a and b: the character
   * on one side of the seam does not appear in p at all.
   */
  predicate SafeSeam(a: string, b: string, p: string) {
    a == [] || b == [] || a[|a| - 1] !in p || b[0] !in p
  }

  lemma {:induction false} CountAppend(a: string, b: string, p: string)
    requires p != [] && SafeSeam(a, b, p)
    ensures Count(a + b, p) == Count(a, p) + Count(b, p)
    decreases |a|
  {
    if a == [] {
      assert a + b == b;
    } else if b == [] {
      assert a + b == a;
    } else if |a + b| >= |p| {
      var s := a + b;
      assert s[1..] == a[1..] + b;
      CountAppend(a[1..], b, p);
      if |a| >= |p| {
        assert s[..|p|] == a[..|p|];
      } else {
        // the window at 0 holds both a's last and b's first character
        assert s[|a| - 1] == a[|a| - 1] && s[|a|] == b[0];
      }
    }
  }

  /** A seam next to a digit or a line break never splits a marker. */
  lemma SafeSeamAtDigitOrNewline(a: string, b: string, p: string)
    requires IsMarker(p)
    requires a == [] || b == []
          || IsDigit(a[|a| - 1]) || a[|a| - 1] == '\n'
          || IsDigit(b[0]) || b[0] == '\n'
    ensures SafeSeam(a, b, p)
  {
  }

  /** One known occurrence makes the count positive. */
  lemma {:induction false} CountPositive(s: string, p: string, k: nat)
    requires p != [] && OccursAt(s, p, k)
    ensures Count(s, p) >= 1
    decreases k
  {
    if k > 0 {
      assert s[1..][k - 1..k - 1 + |p|] == s[k..k + |p|];
      CountPositive(s[1..], p, k - 1);
    }
  }

  lemma OccursBetween(x: string, p: string, y: string)
    ensures OccursAt(x + p + y, p, |x|)
  {
    assert (x + p + y)[|x|..|x| + |p|] == p;
  }

  /** An occurrence inside an occurrence. */
  lemma OccursWithin(s: string, p: string, k: nat, q: string, j: nat)
    requires OccursAt(s, p, k) && OccursAt(p, q, j)
    ensures OccursAt(s, q, k + j)
  {
    forall x | 0 <= x < |q|
      ensures s[k + j + x] == q[x]
    {
      assert s[k..k + |p|][j + x] == s[k + j + x];
      assert p[j..j + |q|][x] == p[j + x];
    }
  }

  /** Reading a character of an occurrence. */
  lemma OccursChar(s: string, p: string, k: nat, j: nat)
    requires OccursAt(s, p, k) && j < |p|
    ensures s[k + j] == p[j]
  {
    assert s[k..k + |p|][j] == s[k + j];
  }

  /** Where each part of a five-part concatenation lies. */
  lemma Parts5(a: string, b: string, c: string, d: string, e: string)
    ensures var s := a + b + c + d + e;
      && |s| == |a| + |b| + |c| + |d| + |e|
      && OccursAt(s, a, 0) && OccursAt(s, b, |a|) && OccursAt(s, c, |a| + |b|)
      && OccursAt(s, d, |a| + |b| + |c|) && OccursAt(s, e, |a| + |b| + |c| + |d|)
  {
    var s := a + b + c + d + e;
    assert s[..|a|] == a;
    assert s[|a|..|a| + |b|] == b;
    assert s[|a| + |b|..|a| + |b| + |c|] == c;
    assert s[|a| + |b| + |c|..|a| + |b| + |c| + |d|] == d;
    assert s[|a| + |b| + |c| + |d|..] == e;
  }

  lemma Regroup(a: string, b: string, c: string)
    ensures a + b + c == a + (b + c)
  {
  }

  lemma Regroup3(a: string, b: string, c: string, e: string)
    ensures a + (b + c + e) == (a + b) + c + e
  {
  }

  /** What follows a prefix of s occurs in s right after it. */
  lemma AfterPrefix(s: string, a: string, b: string)
    requires a + b <= s
    ensures OccursAt(s, b, |a|)
  {
    assert s[|a|..|a| + |b|] == (a + b)[|a|..] == b;
  }

  /** The maximal run of digits that ends s. */
  function DigitSuffixLength(s: string): (n: nat)
    ensures n <= |s| && AllDigits(s[|s| - n..])
    ensures n < |s| ==> !IsDigit(s[|s| - n - 1])
    decreases |s|
  {
    if s == [] || !IsDigit(s[|s| - 1]) then 0
    else
      var init := s[..|s| - 1];
      var n := DigitSuffixLength(init);
      var run := s[|s| - (n + 1)..];
      assert run == init[|init| - n..] + [s[|s| - 1]];
      assert forall k | 0 <= k < n :: run[k] == init[|init| - n..][k];
      assert n < |init| ==> s[|s| - n - 2] == init[|init| - n - 1];
      n + 1
  }

  /** Appending digits to a text ending in a non-digit: the digit run is exactly the appended part. */
  lemma {:induction false} DigitSuffixOfName(stem: string, d: string)
    requires stem != [] && !IsDigit(stem[|stem| - 1]) && AllDigits(d)
    ensures DigitSuffixLength(stem + d) == |d|
    decreases |d|
  {
    if d == [] {
      assert stem + d == stem;
    } else {
      assert (stem + d)[..|stem + d| - 1] == stem + d[..|d| - 1];
      DigitSuffixOfName(stem, d[..|d| - 1]);
    }
  }
}
